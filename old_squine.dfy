/** The older SuperCollider unit generator (plugins/Squine/Squine.cpp).

    Its frequency, clip and skew are plain fields: an input at audio rate is read sample by
    sample, one at control rate ramps linearly over the block toward the host's one value,
    and one at scalar rate keeps the value the constructor read. Its hard sync pulls the
    frequency toward 2 * Max_Warp_Freq by a raised cosine whose phase advances pi / Min_Sweep
    per sample, and a frequency read at control rate goes on from the boosted value
    (non_sync_freq is restored when the cycle ends). The host's buffers are sequences (inputs) and an array (the sound output); the
    sample rate, the rates of the inputs and the random number the constructor may draw are
    parameters. find_sync is the same function as in the newer plugin and is taken from it. */
module OldSquine {
  import opened Libm
  import opened Shape
  import Shared = Squine
  import Newer = ScSquine

  datatype Option<T> = None | Some(value: T)

  /** The rate of a host input: isAudioRateIn, isControlRateIn, or neither. */
  datatype Rate = AudioRate | ControlRate | ScalarRate

  /** The rates of the frequency, clip and skew inputs, and whether the sync input is at
      audio rate. */
  datatype Rates = Rates(freq: Rate, clip: Rate, skew: Rate, syncAr: bool)

  /** The host buffers of one block; in0 is the first sample of a buffer. */
  datatype Buffers = Buffers(freq: seq<real>, clip: seq<real>, skew: seq<real>, sync: seq<real>)

  /** The host gives every input its first sample, each audio-rate input n samples, and the
      sync input n samples when it is at audio rate. */
  predicate Supplies(rt: Rates, b: Buffers, n: int)
  {
    && |b.freq| >= 1 && |b.clip| >= 1 && |b.skew| >= 1
    && (rt.freq == AudioRate ==> |b.freq| >= n)
    && (rt.clip == AudioRate ==> |b.clip| >= n)
    && (rt.skew == AudioRate ==> |b.skew| >= n)
    && (rt.syncAr ==> |b.sync| >= n)
  }

  // ---------------------------------------------------------------------------------------
  //  Constants set up by the constructor
  // ---------------------------------------------------------------------------------------

  datatype OldConsts = OldConsts(
    minSweep: real,      // shortest sweep, in samples
    maxphaseBySr: real,  // phase increment per sample per Hz (a cycle has length 2)
    maxWarpFreq: real,   // at or above this frequency the output is a pure cosine
    maxWarp: real)       // largest advance of the warped clock per sample

  predicate ConstsValid(k: OldConsts)
  {
    && k.minSweep >= 4.0 && k.maxphaseBySr > 0.0 && k.maxWarpFreq > 0.0
    && 0.0 < k.maxWarp <= 0.25 && k.maxWarp * k.minSweep == 1.0
  }

  /** The minimum sweep: the argument when it lies in [4, sampleRate / 100], otherwise
      10 * drand + 5 kept in [5, 15] and truncated to an integer. */
  function MinSweepOf(arg: real, sampleRate: real, drand: real): (m: real)
    ensures m >= 4.0
    ensures 4.0 <= arg <= sampleRate * 0.01 ==> m == arg
    ensures !(4.0 <= arg <= sampleRate * 0.01) ==> 5.0 <= m <= 15.0 && m == m.Floor as real
    ensures !(4.0 <= arg <= sampleRate * 0.01) && 0.0 <= drand < 1.0 ==> m <= 14.0
  {
    if arg < 4.0 || arg > sampleRate * 0.01 then
      var r := Clamp(10.0 * drand + 5.0, 5.0, 15.0);
      r.Floor as real
    else arg
  }

  /** The constructor's constants, all derived from the minimum sweep it settles on. */
  function ConstsOf(arg: real, sampleRate: real, drand: real): (k: OldConsts)
    requires sampleRate > 0.0
    ensures ConstsValid(k)
    ensures k.minSweep == MinSweepOf(arg, sampleRate, drand)
    ensures k.maxphaseBySr * sampleRate == 2.0
    ensures k.maxWarpFreq * (2.0 * k.minSweep) == sampleRate
    ensures k.maxWarp * k.minSweep == 1.0
  {
    var ms := MinSweepOf(arg, sampleRate, drand);
    OldConsts(ms, 2.0 / sampleRate, sampleRate / (2.0 * ms), 1.0 / ms)
  }

  /** The linear clock's increment per sample at the frequency freq. */
  function PhaseInc(k: OldConsts, freq: real): (r: real)
    ensures ConstsValid(k) && freq >= 0.0 ==> r >= 0.0
    ensures ConstsValid(k) && freq > 0.0 ==> r > 0.0
  {
    ScaledSign(freq, k.maxphaseBySr);
    k.maxphaseBySr * freq
  }

  /** The constructor's clip, 1 - Clamp(in0(1), -1, 1): it takes the clamp range meant for
      the skew, so a clip input below 0 yields a proportion above 1. */
  function StartClip(x: real): (c: real)
    ensures 0.0 <= c <= 2.0
    ensures 0.0 <= x <= 1.0 ==> c + x == 1.0
    ensures x < 0.0 ==> c > 1.0
  {
    1.0 - Clamp(x, -1.0, 1.0)
  }

  /** The constructor's skew, 1 - Clamp(in0(2), 0, 1): it takes the clamp range meant for
      the clip, so a skew input below 0 acts as 0 and the first half is at most 1 long. */
  function StartSkew(x: real): (c: real)
    ensures 0.0 <= c <= 1.0
    ensures 0.0 <= x <= 1.0 ==> c + x == 1.0
    ensures x < 0.0 ==> c == 1.0
  {
    1.0 - Clamp(x, 0.0, 1.0)
  }

  /** The constructor's start phase: a negative one becomes the upward zero crossing 1.25;
      init_phase reduces one past 2 modulo 2. */
  function StartPhaseOf(x: real): (t: real)
    ensures x >= 0.0 ==> t == x
    ensures x < 0.0 ==> t == 1.25
    ensures SeedTarget(t) == SeedTarget(x)
  {
    if x < 0.0 then 1.25 else x
  }

  // ---------------------------------------------------------------------------------------
  //  The unit's state
  // ---------------------------------------------------------------------------------------

  datatype Unit = Unit(freq: real, nonSyncFreq: real, clip: real, skew: real,
                       phase: real, warpedPhase: real, hardsyncPhase: real, hardsyncInc: real)

  /** What every sample keeps: the hard sync ramp's phase in [0, pi] and its increment not
      negative, and no hard sync unless the sync input is at audio rate (only a scan of it
      requests one). */
  predicate Ready(s: Unit, rt: Rates)
  {
    && 0.0 <= s.hardsyncPhase <= PI && s.hardsyncInc >= 0.0
    && (!rt.syncAr ==> s.hardsyncPhase == 0.0)
  }

  /** The sweep quantities at the increment phaseInc: the shortest sweep, the midpoint
      clamped by it, the two sweeps' lengths and the warp's cap Max_Warp. */
  function OldEnv(k: OldConsts, phaseInc: real, clip: real, skew: real): (e: Env)
    ensures e.phaseInc == phaseInc && e.minSweep == phaseInc * k.minSweep
    ensures e.maxSweepInc == k.maxWarp
    ensures e.midpoint == Clamp(skew, e.minSweep, 2.0 - e.minSweep)
    ensures e.downLength == DownLength(clip, e.midpoint, e.minSweep)
    ensures e.upLength == UpLength(clip, e.midpoint, e.minSweep)
    ensures ConstsValid(k) && phaseInc >= 0.0 ==> EnvValid(e)
  {
    var ms := phaseInc * k.minSweep;
    ScaledSign(phaseInc, k.minSweep);
    var mid := Clamp(skew, ms, 2.0 - ms);
    Env(phaseInc, ms, mid, DownLength(clip, mid, ms), UpLength(clip, mid, ms), k.maxWarp)
  }

  /** init_phase(phase_in): both clocks set to the requested point of the symbolic phase
      (see Shape.SeedClocks) at the unit's own frequency, clip and skew. */
  function Seeded(s: Unit, k: OldConsts, phaseIn: real): (r: Unit)
    ensures r == s.(phase := r.phase, warpedPhase := r.warpedPhase)
    ensures var t := SeedTarget(phaseIn);
            && (t < 0.5 ==> r.warpedPhase == 2.0 * t)
            && (0.5 <= t < 1.0 ==> r.warpedPhase == 1.0)
            && (1.0 <= t < 1.5 ==> r.warpedPhase == 2.0 * t - 1.0)
            && (1.5 <= t ==> r.warpedPhase == 2.0)
  {
    var e := OldEnv(k, PhaseInc(k, s.freq), s.clip, s.skew);
    var c := SeedClocks(e, SeedTarget(phaseIn));
    s.(phase := c.phase, warpedPhase := c.warp)
  }

  /** The unit as the constructor leaves it before its call of next(1): the inputs' first
      samples read (clip and skew with the constructor's clamps), no hard sync, and the
      clocks seeded unless the start phase is 0. */
  function Started(k: OldConsts, rt: Rates, b: Buffers, startPhase: real, residualPhase: real,
                   residualWarp: real): (s: Unit)
    requires |b.freq| >= 1 && |b.clip| >= 1 && |b.skew| >= 1
    ensures Ready(s, rt)
    ensures s.freq == b.freq[0] && s.nonSyncFreq == b.freq[0]
    ensures s.clip == StartClip(b.clip[0]) && s.skew == StartSkew(b.skew[0])
    ensures s.hardsyncPhase == 0.0 && s.hardsyncInc == 0.0
    ensures startPhase == 0.0 ==> s.phase == residualPhase && s.warpedPhase == residualWarp
    ensures startPhase != 0.0 ==>
      s == Seeded(Unit(b.freq[0], b.freq[0], StartClip(b.clip[0]), StartSkew(b.skew[0]),
                       residualPhase, residualWarp, 0.0, 0.0), k, startPhase)
  {
    var s := Unit(b.freq[0], b.freq[0], StartClip(b.clip[0]), StartSkew(b.skew[0]),
                  residualPhase, residualWarp, 0.0, 0.0);
    if startPhase != 0.0 then
      SeededByTarget(s, k, StartPhaseOf(startPhase), startPhase);
      Seeded(s, k, StartPhaseOf(startPhase))
    else s
  }

  /** init_phase depends on its argument only through the point of the cycle it names. */
  lemma SeededByTarget(s: Unit, k: OldConsts, a: real, b: real)
    requires SeedTarget(a) == SeedTarget(b)
    ensures Seeded(s, k, a) == Seeded(s, k, b)
  {
  }

  // ---------------------------------------------------------------------------------------
  //  One sample
  // ---------------------------------------------------------------------------------------

  /** The per-sample increments next computes for the control-rate inputs at the head of
      the block, zero for the others. */
  datatype Incs = Incs(freq: real, clip: real, skew: real)

  /** The increments of a block of n samples: each control-rate input covers, in n equal
      steps, the distance from its field to the value the host gives it (the clip and skew
      as the GET_ macros of the newer plugin map them). */
  function BlockIncs(s: Unit, rt: Rates, b: Buffers, n: int): (inc: Incs)
    requires n >= 1 && |b.freq| >= 1 && |b.clip| >= 1 && |b.skew| >= 1
    ensures rt.freq == ControlRate ==> s.freq + (n as real) * inc.freq == b.freq[0]
    ensures rt.clip == ControlRate ==> s.clip + (n as real) * inc.clip == Shared.ClipOf(b.clip[0])
    ensures rt.skew == ControlRate ==> s.skew + (n as real) * inc.skew == Shared.SkewOf(b.skew[0])
    ensures rt.freq != ControlRate ==> inc.freq == 0.0
    ensures rt.clip != ControlRate ==> inc.clip == 0.0
    ensures rt.skew != ControlRate ==> inc.skew == 0.0
  {
    var m := n as real;
    var fi := if rt.freq == ControlRate then (b.freq[0] - s.freq) / m else 0.0;
    var ci := if rt.clip == ControlRate then (Shared.ClipOf(b.clip[0]) - s.clip) / m else 0.0;
    var si := if rt.skew == ControlRate then (Shared.SkewOf(b.skew[0]) - s.skew) / m else 0.0;
    Incs(fi, ci, si)
  }

  /** The head of the loop body: control-rate inputs take one step of their ramps, the clip
      clamped into [0, 1] and the skew into [-1, 1] after it; an audio-rate frequency is
      read, never negative; scalar inputs keep their values. The frequency the sample
      starts from is also the one a hard sync restores. */
  function Stepped(s: Unit, rt: Rates, inc: Incs, b: Buffers, i: int): (r: Unit)
    requires 0 <= i && (rt.freq == AudioRate ==> i < |b.freq|)
    ensures r == s.(freq := r.freq, nonSyncFreq := r.nonSyncFreq, clip := r.clip, skew := r.skew)
    ensures rt.freq == ControlRate ==> r.freq == s.freq + inc.freq && r.nonSyncFreq == r.freq
    ensures rt.freq == AudioRate ==> r.freq == Max(b.freq[i], 0.0) && r.nonSyncFreq == r.freq
    ensures rt.freq == ScalarRate ==> r.freq == s.freq && r.nonSyncFreq == s.nonSyncFreq
    ensures rt.clip == ControlRate ==> r.clip == Clamp(s.clip + inc.clip, 0.0, 1.0) && 0.0 <= r.clip <= 1.0
    ensures rt.skew == ControlRate ==> r.skew == Clamp(s.skew + inc.skew, -1.0, 1.0)
    ensures rt.skew == ControlRate ==> -1.0 <= r.skew <= 1.0
    ensures rt.clip != ControlRate ==> r.clip == s.clip
    ensures rt.skew != ControlRate ==> r.skew == s.skew
  {
    var s := match rt.freq
      case ControlRate => s.(freq := s.freq + inc.freq, nonSyncFreq := s.freq + inc.freq)
      case AudioRate => s.(freq := Max(b.freq[i], 0.0), nonSyncFreq := Max(b.freq[i], 0.0))
      case ScalarRate => s;
    var s := if rt.clip == ControlRate then s.(clip := Clamp(s.clip + inc.clip, 0.0, 1.0)) else s;
    if rt.skew == ControlRate then s.(skew := Clamp(s.skew + inc.skew, -1.0, 1.0)) else s
  }

  /** A product with a positive factor has the other factor's sign. */
  lemma ScaledSign(a: real, m: real)
    ensures m > 0.0 ==> (a > 0.0 <==> a * m > 0.0) && (a == 0.0 <==> a * m == 0.0)
  {
    if m > 0.0 && a > 0.0 {
      PositiveProduct(a, m);
    } else if m > 0.0 && a < 0.0 {
      PositiveProduct(-a, m);
    }
  }

  /** hardsync_init(freq, warped_phase), on the unit's own fields: start the ramp unless one
      is active, the wave is on its last flat part (then the cycle ends now) or the
      frequency lies above Max_Warp_Freq. The ramp takes Min_Sweep / 2 samples to reach
      pi, starting half an increment in. */
  function HardsyncStart(s: Unit, k: OldConsts): (r: Unit)
    requires ConstsValid(k)
    ensures r.warpedPhase == s.warpedPhase && r.freq == s.freq && r.nonSyncFreq == s.nonSyncFreq
    ensures r.clip == s.clip && r.skew == s.skew
    ensures s.hardsyncPhase != 0.0 ==> r == s
    ensures s.hardsyncPhase == 0.0 && s.warpedPhase == 2.0 ==> r == s.(phase := 2.0)
    ensures s.hardsyncPhase == 0.0 && s.warpedPhase != 2.0 && s.freq > k.maxWarpFreq ==> r == s
    ensures s.hardsyncPhase == 0.0 && s.warpedPhase != 2.0 && s.freq <= k.maxWarpFreq ==>
      r.phase == s.phase && r.hardsyncInc * k.minSweep == PI && r.hardsyncPhase * 2.0 == r.hardsyncInc
  {
    if s.hardsyncPhase != 0.0 then s
    else if s.warpedPhase == 2.0 then s.(phase := 2.0)
    else if s.freq > k.maxWarpFreq then s
    else
      s.(hardsyncInc := PI / k.minSweep, hardsyncPhase := PI / k.minSweep * 0.5)
  }

  /** The head of the sample loop after the inputs' step: serve a sync request at this
      sample, then, while a hard sync is active, move the frequency toward
      2 * Max_Warp_Freq by the raised-cosine weight of the ramp's phase, which advances
      and is pinned at pi. The boosted frequency stays in the field. */
  function Prepared(s: Unit, k: OldConsts, fire: bool, cos: Cosine): (r: Unit)
    requires ConstsValid(k) && 0.0 <= s.hardsyncPhase <= PI && s.hardsyncInc >= 0.0
    ensures 0.0 <= r.hardsyncPhase <= PI && r.hardsyncInc >= 0.0
    ensures r.warpedPhase == s.warpedPhase && r.nonSyncFreq == s.nonSyncFreq
    ensures r.clip == s.clip && r.skew == s.skew
    ensures Min(s.freq, 2.0 * k.maxWarpFreq) <= r.freq <= Max(s.freq, 2.0 * k.maxWarpFreq)
    ensures !fire && s.hardsyncPhase == 0.0 ==> r == s
    ensures var v := if fire then HardsyncStart(s, k) else s;
            && (v.hardsyncPhase == 0.0 ==> r == v)
            && (v.hardsyncPhase != 0.0 ==>
                  r.phase == v.phase &&
                  r.hardsyncPhase == Min(v.hardsyncPhase + v.hardsyncInc, PI) &&
                  r.hardsyncInc == (if v.hardsyncPhase + v.hardsyncInc > PI then 0.0 else v.hardsyncInc))
  {
    var v := if fire then HardsyncStart(s, k) else s;
    if v.hardsyncPhase != 0.0 then
      var syncsweep := 0.5 * (1.0 - cos(v.hardsyncPhase));
      var f := Shared.Ramp(v.freq, 2.0 * k.maxWarpFreq, syncsweep);
      var hp := v.hardsyncPhase + v.hardsyncInc;
      if hp > PI then v.(freq := f, hardsyncPhase := PI, hardsyncInc := 0.0)
      else v.(freq := f, hardsyncPhase := hp)
    else v
  }

  /** The slow path's reading of the audio-rate clip and skew at sample i, with the GET_
      mappings: clip in [0, 1], skew in [0, 2]. */
  function Reread(s: Unit, rt: Rates, b: Buffers, i: int): (r: Unit)
    requires 0 <= i && (rt.clip == AudioRate ==> i < |b.clip|) && (rt.skew == AudioRate ==> i < |b.skew|)
    ensures r == s.(clip := r.clip, skew := r.skew)
    ensures rt.clip == AudioRate ==> r.clip == Shared.ClipOf(b.clip[i])
    ensures rt.skew == AudioRate ==> r.skew == Shared.SkewOf(b.skew[i])
    ensures rt.clip != AudioRate ==> r.clip == s.clip
    ensures rt.skew != AudioRate ==> r.skew == s.skew
  {
    var s := if rt.clip == AudioRate then s.(clip := Shared.ClipOf(b.clip[i])) else s;
    if rt.skew == AudioRate then s.(skew := Shared.SkewOf(b.skew[i])) else s
  }

  /** The unit after the waveform shaping (clocks before the linear clock's advance) and the
      sample it outputs. */
  datatype Shaping = Shaping(s: Unit, audio: real)

  /** The waveform shaping at the unit's frequency: the pure cosine of the warp at or above
      Max_Warp_Freq (no input is read), otherwise the audio-rate clip and skew are read and
      the segment the clocks are on shapes the sample. */
  function Shaped(s: Unit, k: OldConsts, rt: Rates, b: Buffers, i: int, cos: Cosine): (r: Shaping)
    requires ConstsValid(k) && s.freq >= 0.0
    requires 0 <= i && (rt.clip == AudioRate ==> i < |b.clip|) && (rt.skew == AudioRate ==> i < |b.skew|)
    ensures -1.0 <= r.audio <= 1.0
    ensures r.s.freq == s.freq && r.s.nonSyncFreq == s.nonSyncFreq
    ensures r.s.hardsyncPhase == s.hardsyncPhase && r.s.hardsyncInc == s.hardsyncInc
    ensures s.freq >= k.maxWarpFreq ==>
      r == Shaping(s.(phase := s.warpedPhase, warpedPhase := s.warpedPhase + PhaseInc(k, s.freq)),
                   cos(PI * s.warpedPhase))
    ensures s.freq < k.maxWarpFreq ==>
      var q := Reread(s, rt, b, i);
      var c := Segments(OldEnv(k, PhaseInc(k, s.freq), q.clip, q.skew), s.phase, s.warpedPhase, cos);
      r == Shaping(q.(phase := c.phase, warpedPhase := c.warp), c.audio)
  {
    var phaseInc := PhaseInc(k, s.freq);
    if s.freq >= k.maxWarpFreq then
      Shaping(s.(phase := s.warpedPhase, warpedPhase := s.warpedPhase + phaseInc), cos(PI * s.warpedPhase))
    else
      var q := Reread(s, rt, b, i);
      var c := Segments(OldEnv(k, phaseInc, q.clip, q.skew), s.phase, s.warpedPhase, cos);
      Shaping(q.(phase := c.phase, warpedPhase := c.warp), c.audio)
  }

  /** The unit after the wraparound test, and whether the sync input must be scanned again. */
  datatype Wrapped = Wrapped(s: Unit, rescan: bool)

  /** The wraparound after the linear clock has advanced: with both clocks at or past 2 a
      hard sync in progress ends with both clocks and the ramp at zero, the frequency back
      to the one the inputs gave, and a new scan for a sync trigger; otherwise the linear
      clock keeps its fraction past 2 (half an increment when that exceeds one increment)
      and the warp restarts from it, on the down sweep below Max_Warp_Freq. */
  function Wrap(s: Unit, k: OldConsts, rt: Rates, b: Buffers, i: int): (r: Wrapped)
    requires ConstsValid(k) && s.freq >= 0.0 && s.hardsyncPhase >= 0.0 && s.hardsyncInc >= 0.0
    requires 0 <= i && (rt.clip == AudioRate ==> i < |b.clip|) && (rt.skew == AudioRate ==> i < |b.skew|)
    ensures r.s.hardsyncPhase >= 0.0 && r.s.hardsyncInc >= 0.0
    ensures r.rescan <==> s.warpedPhase >= 2.0 && s.phase >= 2.0 && s.hardsyncPhase != 0.0
    ensures r.rescan ==>
      r.s == s.(phase := 0.0, warpedPhase := 0.0, hardsyncPhase := 0.0, hardsyncInc := 0.0, freq := s.nonSyncFreq)
    ensures !(s.warpedPhase >= 2.0 && s.phase >= 2.0) ==> r.s == s
    ensures s.warpedPhase >= 2.0 && s.phase >= 2.0 && s.hardsyncPhase == 0.0 ==>
      var phaseInc := PhaseInc(k, s.freq);
      && r.s.freq == s.freq && r.s.nonSyncFreq == s.nonSyncFreq
      && r.s.hardsyncPhase == 0.0 && r.s.hardsyncInc == s.hardsyncInc
      && 0.0 <= r.s.phase <= phaseInc
      && (s.phase - 2.0 <= phaseInc ==> r.s.phase == s.phase - 2.0)
      && (s.phase - 2.0 > phaseInc ==> r.s.phase == phaseInc * 0.5)
      && (s.freq >= k.maxWarpFreq ==> r.s.warpedPhase == r.s.phase && r.s.clip == s.clip && r.s.skew == s.skew)
      && (s.freq < k.maxWarpFreq ==> 0.0 <= r.s.warpedPhase <= k.maxWarp)
      && (s.freq < k.maxWarpFreq ==>
            && r.s.clip == Reread(s, rt, b, i).clip && r.s.skew == Reread(s, rt, b, i).skew
            && r.s.warpedPhase == DownRestart(OldEnv(k, phaseInc, r.s.clip, r.s.skew), r.s.phase))
  {
    var phaseInc := PhaseInc(k, s.freq);
    if s.warpedPhase >= 2.0 && s.phase >= 2.0 then
      if s.hardsyncPhase != 0.0 then
        Wrapped(s.(phase := 0.0, warpedPhase := 0.0, hardsyncPhase := 0.0, hardsyncInc := 0.0,
                   freq := s.nonSyncFreq), true)
      else
        var ph := s.phase - 2.0;
        var ph := if ph > phaseInc then phaseInc * 0.5 else ph;
        if s.freq < k.maxWarpFreq then
          var q := Reread(s, rt, b, i);
          Wrapped(q.(phase := ph, warpedPhase := DownRestart(OldEnv(k, phaseInc, q.clip, q.skew), ph)), false)
        else Wrapped(s.(phase := ph, warpedPhase := ph), false)
    else Wrapped(s, false)
  }

  /** The outcome of one sample: the unit, the output and whether to scan again. */
  datatype Sampled = Sampled(s: Unit, audio: real, rescan: bool)

  /** One pass of next's sample loop at index i, with a sync requested here or not, on the
      increments inc of the block. None when the inputs' step leaves a negative frequency:
      the sweeps are then outside this model. A rescan happens only when a hard sync was
      active or was just started. */
  function Sample(s: Unit, k: OldConsts, rt: Rates, inc: Incs, b: Buffers, i: int, fire: bool, cos: Cosine)
    : (r: Option<Sampled>)
    requires ConstsValid(k) && Ready(s, rt) && 0 <= i
    requires (rt.freq == AudioRate ==> i < |b.freq|)
    requires (rt.clip == AudioRate ==> i < |b.clip|) && (rt.skew == AudioRate ==> i < |b.skew|)
    ensures r.None? <==> Stepped(s, rt, inc, b, i).freq < 0.0
    ensures r.Some? ==> -1.0 <= r.value.audio <= 1.0
    ensures r.Some? ==> 0.0 <= r.value.s.hardsyncPhase <= PI && r.value.s.hardsyncInc >= 0.0
    ensures r.Some? && r.value.rescan ==> fire || s.hardsyncPhase != 0.0
    ensures r.Some? && !fire && s.hardsyncPhase == 0.0 ==>
      !r.value.rescan && r.value.s.hardsyncPhase == 0.0 && r.value.s.freq == Stepped(s, rt, inc, b, i).freq
    ensures r.Some? && rt.clip != AudioRate ==> r.value.s.clip == Stepped(s, rt, inc, b, i).clip
    ensures r.Some? && rt.skew != AudioRate ==> r.value.s.skew == Stepped(s, rt, inc, b, i).skew
  {
    var s1 := Stepped(s, rt, inc, b, i);
    if s1.freq < 0.0 then None
    else
      var s2 := Prepared(s1, k, fire, cos);
      assert s2.freq >= 0.0;
      var sh := Shaped(s2, k, rt, b, i, cos);
      var s3 := sh.s.(phase := sh.s.phase + PhaseInc(k, s2.freq));
      var w := Wrap(s3, k, rt, b, i);
      Some(Sampled(w.s, sh.audio, w.rescan))
  }

  /** On the pure-cosine path the linear clock ends every sample equal to the warp, and
      the output is the cosine of the warp the sample started from. */
  lemma FastPathLocksClocks(s: Unit, k: OldConsts, rt: Rates, inc: Incs, b: Buffers, i: int, fire: bool,
                            cos: Cosine)
    requires ConstsValid(k) && Ready(s, rt) && 0 <= i
    requires (rt.freq == AudioRate ==> i < |b.freq|)
    requires (rt.clip == AudioRate ==> i < |b.clip|) && (rt.skew == AudioRate ==> i < |b.skew|)
    requires Sample(s, k, rt, inc, b, i, fire, cos).Some?
    requires Prepared(Stepped(s, rt, inc, b, i), k, fire, cos).freq >= k.maxWarpFreq
    ensures var r := Sample(s, k, rt, inc, b, i, fire, cos).value;
            r.s.phase == r.s.warpedPhase && r.audio == cos(PI * s.warpedPhase)
  {
    var s2 := Prepared(Stepped(s, rt, inc, b, i), k, fire, cos);
    var sh := Shaped(s2, k, rt, b, i, cos);
    assert sh.s.phase + PhaseInc(k, s2.freq) == sh.s.warpedPhase;
  }

  // ---------------------------------------------------------------------------------------
  //  One block
  // ---------------------------------------------------------------------------------------

  /** What the sample loop needs at index i of an n-sample block: valid constants, a ready
      unit, buffers that can be read up to n, and no sync index unless the sync input is at
      audio rate. */
  predicate Runnable(s: Unit, k: OldConsts, rt: Rates, b: Buffers, i: int, n: int, sync: int)
  {
    ConstsValid(k) && Ready(s, rt) && 0 <= i <= n && Supplies(rt, b, n) && (!rt.syncAr ==> sync == -1)
  }

  /** The unit after one pass of the sample loop, the sync index it goes on with, and the
      sample it wrote. */
  datatype Ticked = Ticked(s: Unit, sync: int, audio: real)

  /** One pass of next's sample loop at index i of an n-sample block: a hard sync is
      requested exactly when i is the sync index, and a wraparound that ends a hard sync
      scans the sync input again, from i. */
  function TickOf(s: Unit, k: OldConsts, rt: Rates, inc: Incs, b: Buffers, i: int, n: int, sync: int,
                  cos: Cosine): (r: Option<Ticked>)
    requires Runnable(s, k, rt, b, i, n, sync) && i < n
    ensures r.None? <==> Stepped(s, rt, inc, b, i).freq < 0.0
    ensures r.Some? ==> Runnable(r.value.s, k, rt, b, i + 1, n, r.value.sync)
    ensures r.Some? ==> -1.0 <= r.value.audio <= 1.0
    ensures r.Some? ==> r.value.sync == sync || r.value.sync == -1 || i <= r.value.sync < n
    ensures r.Some? && rt.clip != AudioRate ==> r.value.s.clip == Stepped(s, rt, inc, b, i).clip
    ensures r.Some? && rt.skew != AudioRate ==> r.value.s.skew == Stepped(s, rt, inc, b, i).skew
    ensures r.Some? && !rt.syncAr ==> r.value.s.freq == Stepped(s, rt, inc, b, i).freq
  {
    match Sample(s, k, rt, inc, b, i, i == sync, cos)
    case None => None
    case Some(q) =>
      var sync := if q.rescan then Newer.FirstSync(b.sync, i, n) else sync;
      Some(Ticked(q.s, sync, q.audio))
  }

  /** The unit, the sync index and the samples written by some passes of the sample loop. */
  datatype Progress = Progress(s: Unit, sync: int, out: seq<real>)

  /** The passes of the sample loop from index i to the end of an n-sample block: None when
      one of them meets a negative frequency. Every sample written lies in [-1, 1]. */
  function Run(s: Unit, k: OldConsts, rt: Rates, inc: Incs, b: Buffers, sync: int, i: int, n: int,
               cos: Cosine): (r: Option<Progress>)
    requires Runnable(s, k, rt, b, i, n, sync)
    ensures r.Some? ==> Runnable(r.value.s, k, rt, b, n, n, r.value.sync)
    ensures r.Some? ==> |r.value.out| == n - i
    ensures r.Some? ==> forall j :: 0 <= j < |r.value.out| ==> -1.0 <= r.value.out[j] <= 1.0
    ensures r.Some? && rt.clip == ControlRate ==> r.value.s.clip == ClampedSteps(s.clip, inc.clip, 0.0, 1.0, n - i)
    ensures r.Some? && rt.skew == ControlRate ==> r.value.s.skew == ClampedSteps(s.skew, inc.skew, -1.0, 1.0, n - i)
    ensures r.Some? && rt.freq == ControlRate && !rt.syncAr ==> r.value.s.freq == Steps(s.freq, inc.freq, n - i)
    decreases n - i
  {
    if i == n then Some(Progress(s, sync, []))
    else
      match TickOf(s, k, rt, inc, b, i, n, sync, cos)
      case None => None
      case Some(t) =>
        TickSteps(s, k, rt, inc, b, i, n, sync, cos);
        Prefixed([t.audio], Run(t.s, k, rt, inc, b, t.sync, i + 1, n, cos))
  }

  /** A pass of the sample loop takes each control-rate ramp one step along. */
  lemma TickSteps(s: Unit, k: OldConsts, rt: Rates, inc: Incs, b: Buffers, i: int, n: int, sync: int, cos: Cosine)
    requires Runnable(s, k, rt, b, i, n, sync) && i < n && TickOf(s, k, rt, inc, b, i, n, sync, cos).Some?
    ensures var t := TickOf(s, k, rt, inc, b, i, n, sync, cos).value.s;
            && (rt.clip == ControlRate ==>
                  ClampedSteps(s.clip, inc.clip, 0.0, 1.0, n - i) == ClampedSteps(t.clip, inc.clip, 0.0, 1.0, n - i - 1))
            && (rt.skew == ControlRate ==>
                  ClampedSteps(s.skew, inc.skew, -1.0, 1.0, n - i) == ClampedSteps(t.skew, inc.skew, -1.0, 1.0, n - i - 1))
            && (rt.freq == ControlRate && !rt.syncAr ==> Steps(s.freq, inc.freq, n - i) == Steps(t.freq, inc.freq, n - i - 1))
  {
  }

  /** A run with the samples pre written before its own. */
  function Prefixed(pre: seq<real>, r: Option<Progress>): (q: Option<Progress>)
    ensures q.Some? <==> r.Some?
    ensures q.Some? ==> q.value.s == r.value.s && q.value.sync == r.value.sync
    ensures q.Some? ==> q.value.out == pre + r.value.out
  {
    match r
    case None => None
    case Some(p) => Some(p.(out := pre + p.out))
  }

  lemma PrefixedTwice(a: seq<real>, b: seq<real>, r: Option<Progress>)
    ensures Prefixed(a, Prefixed(b, r)) == Prefixed(a + b, r)
  {
    if r.Some? {
      assert a + (b + r.value.out) == (a + b) + r.value.out;
    }
  }

  /** next(nSamples): the control-rate increments and the first sync index of the block,
      then the sample loop over the whole block. */
  function Block(s: Unit, k: OldConsts, rt: Rates, b: Buffers, n: int, cos: Cosine): (r: Option<Progress>)
    requires ConstsValid(k) && Ready(s, rt) && n >= 1 && Supplies(rt, b, n)
    ensures r.Some? ==> Ready(r.value.s, rt) && |r.value.out| == n
    ensures r.Some? ==> forall j :: 0 <= j < n ==> -1.0 <= r.value.out[j] <= 1.0
  {
    var sync := if rt.syncAr then Newer.FirstSync(b.sync, 0, n) else -1;
    Run(s, k, rt, BlockIncs(s, rt, b, n), b, sync, 0, n, cos)
  }

  // ---------------------------------------------------------------------------------------
  //  Properties of a block
  // ---------------------------------------------------------------------------------------

  /** The frequency can never turn negative: it is read at audio rate (through fmax), or it
      and the frequency a hard sync restores are not negative and a control-rate ramp does
      not fall. */
  predicate FreqSafe(s: Unit, rt: Rates, inc: Incs)
  {
    rt.freq == AudioRate || (s.freq >= 0.0 && s.nonSyncFreq >= 0.0 && (rt.freq == ControlRate ==> inc.freq >= 0.0))
  }

  /** A pass of the sample loop from a safe frequency succeeds and leaves it safe: the
      input step keeps it non-negative, a boost moves it toward the positive
      2 * Max_Warp_Freq, and the end of a hard sync restores a non-negative one. */
  lemma TickKeepsSafe(s: Unit, k: OldConsts, rt: Rates, inc: Incs, b: Buffers, i: int, n: int, sync: int,
                      cos: Cosine)
    requires Runnable(s, k, rt, b, i, n, sync) && i < n && FreqSafe(s, rt, inc)
    ensures var t := TickOf(s, k, rt, inc, b, i, n, sync, cos);
            t.Some? && FreqSafe(t.value.s, rt, inc)
  {
    var s1 := Stepped(s, rt, inc, b, i);
    assert s1.freq >= 0.0 && s1.nonSyncFreq >= 0.0;
    var s2 := Prepared(s1, k, i == sync, cos);
    assert s2.freq >= 0.0 && s2.nonSyncFreq >= 0.0;
  }

  /** From a safe frequency the sample loop runs to the end of the block. */
  lemma {:induction false} RunDefined(s: Unit, k: OldConsts, rt: Rates, inc: Incs, b: Buffers, sync: int, i: int,
                                      n: int, cos: Cosine)
    requires Runnable(s, k, rt, b, i, n, sync) && FreqSafe(s, rt, inc)
    ensures Run(s, k, rt, inc, b, sync, i, n, cos).Some?
    decreases n - i
  {
    if i < n {
      TickKeepsSafe(s, k, rt, inc, b, i, n, sync, cos);
      var t := TickOf(s, k, rt, inc, b, i, n, sync, cos).value;
      RunDefined(t.s, k, rt, inc, b, t.sync, i + 1, n, cos);
    }
  }

  /** A block runs to its end when the frequency is read at audio rate; when the unit's
      frequencies are not negative and a control-rate frequency input does not lie below
      the current frequency; and, without an audio-rate sync input, when a control-rate
      frequency ramp starts and ends at a frequency that is not negative, falling or not. */
  lemma BlockDefined(s: Unit, k: OldConsts, rt: Rates, b: Buffers, n: int, cos: Cosine)
    requires ConstsValid(k) && Ready(s, rt) && n >= 1 && Supplies(rt, b, n)
    requires || rt.freq == AudioRate
             || (s.freq >= 0.0 && s.nonSyncFreq >= 0.0 && (rt.freq == ControlRate ==> b.freq[0] >= s.freq))
             || (!rt.syncAr && rt.freq == ControlRate && s.freq >= 0.0 && b.freq[0] >= 0.0)
    ensures Block(s, k, rt, b, n, cos).Some?
  {
    var inc := BlockIncs(s, rt, b, n);
    var sync := if rt.syncAr then Newer.FirstSync(b.sync, 0, n) else -1;
    if !rt.syncAr && rt.freq == ControlRate && s.freq >= 0.0 && b.freq[0] >= 0.0 {
      StepsCover(s.freq, inc.freq, n);
      RunDefinedOnRamp(s, k, rt, inc, b, sync, 0, n, cos);
    } else {
      if rt.freq == ControlRate {
        assert (n as real) * inc.freq >= 0.0;
        assert inc.freq >= 0.0 by {
          if inc.freq < 0.0 {
            MulStrict(n as real, inc.freq, 0.0);
          }
        }
      }
      RunDefined(s, k, rt, inc, b, sync, 0, n, cos);
    }
  }

  /** Without an audio-rate sync input, a control-rate frequency ramp that is not negative
      now and where it ends at the end of the block: every step of it lies between the two. */
  predicate RampSafe(s: Unit, rt: Rates, inc: Incs, i: int, n: int)
    requires i <= n
  {
    !rt.syncAr && rt.freq == ControlRate && s.freq >= 0.0 && Steps(s.freq, inc.freq, n - i) >= 0.0
  }

  /** The first of j >= 1 steps lies between the start and the end. */
  lemma FirstStepBetween(x: real, d: real, j: nat)
    requires j >= 1
    ensures Min(x, Steps(x, d, j)) <= x + d <= Max(x, Steps(x, d, j))
  {
    StepsCover(x, d, j);
    if d >= 0.0 {
      NonNegativeProduct((j - 1) as real, d);
    } else {
      NonNegativeProduct((j - 1) as real, -d);
    }
    assert (j as real) * d == ((j - 1) as real) * d + d;
  }

  /** A pass of the sample loop on a safe ramp succeeds and leaves the ramp safe: its step
      lies between two frequencies that are not negative, and the end of the ramp stays
      where it was. */
  lemma TickKeepsRampSafe(s: Unit, k: OldConsts, rt: Rates, inc: Incs, b: Buffers, i: int, n: int, sync: int,
                          cos: Cosine)
    requires Runnable(s, k, rt, b, i, n, sync) && i < n && RampSafe(s, rt, inc, i, n)
    ensures var t := TickOf(s, k, rt, inc, b, i, n, sync, cos);
            t.Some? && RampSafe(t.value.s, rt, inc, i + 1, n)
  {
    FirstStepBetween(s.freq, inc.freq, n - i);
    TickSteps(s, k, rt, inc, b, i, n, sync, cos);
  }

  /** On a safe ramp the sample loop runs to the end of the block. */
  lemma {:induction false} RunDefinedOnRamp(s: Unit, k: OldConsts, rt: Rates, inc: Incs, b: Buffers, sync: int,
                                            i: int, n: int, cos: Cosine)
    requires Runnable(s, k, rt, b, i, n, sync) && RampSafe(s, rt, inc, i, n)
    ensures Run(s, k, rt, inc, b, sync, i, n, cos).Some?
    decreases n - i
  {
    if i < n {
      TickKeepsRampSafe(s, k, rt, inc, b, i, n, sync, cos);
      var t := TickOf(s, k, rt, inc, b, i, n, sync, cos).value;
      RunDefinedOnRamp(t.s, k, rt, inc, b, t.sync, i + 1, n, cos);
    }
  }

  /** j steps of size d from x, each clamped into [lo, hi]: a control-rate clip or skew
      over j samples. */
  function ClampedSteps(x: real, d: real, lo: real, hi: real, j: nat): (r: real)
    requires lo <= hi
    ensures j > 0 ==> lo <= r <= hi
    ensures j == 0 ==> r == x
    decreases j
  {
    if j == 0 then x else ClampedSteps(Clamp(x + d, lo, hi), d, lo, hi, j - 1)
  }

  /** j steps of size d from x: a control-rate frequency over j samples. */
  function Steps(x: real, d: real, j: nat): real
    decreases j
  {
    if j == 0 then x else Steps(x + d, d, j - 1)
  }

  /** j steps of size d cover j * d. */
  lemma {:induction false} StepsCover(x: real, d: real, j: nat)
    ensures Steps(x, d, j) == x + (j as real) * d
    decreases j
  {
    if j > 0 {
      StepsCover(x + d, d, j - 1);
      assert (j as real) * d == ((j - 1) as real) * d + d;
    }
  }

  /** Steps of a non-negative size never end below the start, of a non-positive one never
      above it. */
  lemma {:induction false} StepsMove(x: real, d: real, j: nat)
    ensures d >= 0.0 ==> Steps(x, d, j) >= x
    ensures d <= 0.0 ==> Steps(x, d, j) <= x
    decreases j
  {
    if j > 0 {
      StepsMove(x + d, d, j - 1);
    }
  }

  /** A clamped ramp whose start and end lie inside [lo, hi] is never clamped. */
  lemma {:induction false} ClampedStepsCover(x: real, d: real, lo: real, hi: real, j: nat)
    requires lo <= x <= hi && lo <= Steps(x, d, j) <= hi
    ensures ClampedSteps(x, d, lo, hi, j) == Steps(x, d, j)
    decreases j
  {
    if j > 0 {
      StepsMove(x + d, d, j - 1);
      ClampedStepsCover(x + d, d, lo, hi, j - 1);
    }
  }

  /** n clamped steps of size d from x inside [lo, hi] arrive at a point t inside it when n
      unclamped steps would. */
  lemma ClampedArrives(x: real, d: real, lo: real, hi: real, n: nat, t: real)
    requires lo <= x <= hi && lo <= t <= hi && x + (n as real) * d == t
    ensures ClampedSteps(x, d, lo, hi, n) == t
  {
    StepsCover(x, d, n);
    ClampedStepsCover(x, d, lo, hi, n);
  }

  /** The sample loop from index i is its pass at i followed by the loop from i + 1. */
  lemma RunNext(s: Unit, k: OldConsts, rt: Rates, inc: Incs, b: Buffers, sync: int, i: int, n: int, cos: Cosine)
    requires Runnable(s, k, rt, b, i, n, sync) && i < n && TickOf(s, k, rt, inc, b, i, n, sync, cos).Some?
    ensures var t := TickOf(s, k, rt, inc, b, i, n, sync, cos).value;
            Run(s, k, rt, inc, b, sync, i, n, cos) == Prefixed([t.audio], Run(t.s, k, rt, inc, b, t.sync, i + 1, n, cos))
  {
  }

  /** The ramps a block's increments describe: a control-rate clip or skew that starts
      inside its clamp range and aims inside it arrives without being clamped, and a
      control-rate frequency arrives in n plain steps. */
  lemma IncsArrive(s: Unit, rt: Rates, b: Buffers, n: int)
    requires n >= 1 && |b.freq| >= 1 && |b.clip| >= 1 && |b.skew| >= 1
    ensures var inc := BlockIncs(s, rt, b, n);
            && (rt.clip == ControlRate && 0.0 <= s.clip <= 1.0 ==>
                  ClampedSteps(s.clip, inc.clip, 0.0, 1.0, n) == Shared.ClipOf(b.clip[0]))
            && (rt.skew == ControlRate && -1.0 <= s.skew <= 1.0 && Shared.SkewOf(b.skew[0]) <= 1.0 ==>
                  ClampedSteps(s.skew, inc.skew, -1.0, 1.0, n) == Shared.SkewOf(b.skew[0]))
            && (rt.freq == ControlRate ==> Steps(s.freq, inc.freq, n) == b.freq[0])
  {
    if rt.clip == ControlRate && 0.0 <= s.clip <= 1.0 {
      ClipIncArrives(s, rt, b, n);
    }
    if rt.skew == ControlRate && -1.0 <= s.skew <= 1.0 && Shared.SkewOf(b.skew[0]) <= 1.0 {
      SkewIncArrives(s, rt, b, n);
    }
    StepsCover(s.freq, BlockIncs(s, rt, b, n).freq, n);
  }

  lemma ClipIncArrives(s: Unit, rt: Rates, b: Buffers, n: int)
    requires n >= 1 && |b.freq| >= 1 && |b.clip| >= 1 && |b.skew| >= 1
    requires rt.clip == ControlRate && 0.0 <= s.clip <= 1.0
    ensures ClampedSteps(s.clip, BlockIncs(s, rt, b, n).clip, 0.0, 1.0, n) == Shared.ClipOf(b.clip[0])
  {
    ClampedArrives(s.clip, BlockIncs(s, rt, b, n).clip, 0.0, 1.0, n, Shared.ClipOf(b.clip[0]));
  }

  lemma SkewIncArrives(s: Unit, rt: Rates, b: Buffers, n: int)
    requires n >= 1 && |b.freq| >= 1 && |b.clip| >= 1 && |b.skew| >= 1
    requires rt.skew == ControlRate && -1.0 <= s.skew <= 1.0 && Shared.SkewOf(b.skew[0]) <= 1.0
    ensures ClampedSteps(s.skew, BlockIncs(s, rt, b, n).skew, -1.0, 1.0, n) == Shared.SkewOf(b.skew[0])
  {
    ClampedArrives(s.skew, BlockIncs(s, rt, b, n).skew, -1.0, 1.0, n, Shared.SkewOf(b.skew[0]));
  }

  /** Over a block, a control-rate clip that starts inside [0, 1] arrives exactly at the
      value the host gives it. */
  lemma BlockClipArrives(s: Unit, k: OldConsts, rt: Rates, b: Buffers, n: int, cos: Cosine)
    requires ConstsValid(k) && Ready(s, rt) && n >= 1 && Supplies(rt, b, n) && Block(s, k, rt, b, n, cos).Some?
    requires rt.clip == ControlRate && 0.0 <= s.clip <= 1.0
    ensures Block(s, k, rt, b, n, cos).value.s.clip == Shared.ClipOf(b.clip[0])
  {
    IncsArrive(s, rt, b, n);
  }

  /** Over a block, a control-rate skew that starts inside [-1, 1] arrives exactly at a
      value the host gives it when that value is at most 1 (a skew input not below 0). */
  lemma BlockSkewArrives(s: Unit, k: OldConsts, rt: Rates, b: Buffers, n: int, cos: Cosine)
    requires ConstsValid(k) && Ready(s, rt) && n >= 1 && Supplies(rt, b, n) && Block(s, k, rt, b, n, cos).Some?
    requires rt.skew == ControlRate && -1.0 <= s.skew <= 1.0 && Shared.SkewOf(b.skew[0]) <= 1.0
    ensures Block(s, k, rt, b, n, cos).value.s.skew == Shared.SkewOf(b.skew[0])
  {
    IncsArrive(s, rt, b, n);
  }

  /** A control-rate skew ends every block inside [-1, 1], so the skews above 1 that a
      negative skew input asks for (a first half longer than the second) are never
      reached. */
  lemma BlockSkewFallsShort(s: Unit, k: OldConsts, rt: Rates, b: Buffers, n: int, cos: Cosine)
    requires ConstsValid(k) && Ready(s, rt) && n >= 1 && Supplies(rt, b, n) && Block(s, k, rt, b, n, cos).Some?
    requires rt.skew == ControlRate
    ensures -1.0 <= Block(s, k, rt, b, n, cos).value.s.skew <= 1.0
    ensures b.skew[0] < 0.0 ==> Block(s, k, rt, b, n, cos).value.s.skew < Shared.SkewOf(b.skew[0])
  {
  }

  /** With no audio-rate sync input, a control-rate frequency arrives exactly at the value
      the host gives it over the block. */
  lemma BlockFreqArrives(s: Unit, k: OldConsts, rt: Rates, b: Buffers, n: int, cos: Cosine)
    requires ConstsValid(k) && Ready(s, rt) && n >= 1 && Supplies(rt, b, n) && Block(s, k, rt, b, n, cos).Some?
    requires rt.freq == ControlRate && !rt.syncAr
    ensures Block(s, k, rt, b, n, cos).value.s.freq == b.freq[0]
  {
    IncsArrive(s, rt, b, n);
  }

  // ---------------------------------------------------------------------------------------
  //  The warped clock's range
  // ---------------------------------------------------------------------------------------

  /** Constants under which the warped clock stays in [0, 2]: below Max_Warp_Freq the
      shortest sweep is shorter than a half cycle. */
  predicate CycleConsts(k: OldConsts)
  {
    ConstsValid(k) && k.maxWarpFreq * k.maxphaseBySr * k.minSweep <= 1.0
  }

  /** The constructor's constants keep the warped clock in [0, 2]. */
  lemma ConstsOfKeepCycle(arg: real, sampleRate: real, drand: real)
    requires sampleRate > 0.0
    ensures CycleConsts(ConstsOf(arg, sampleRate, drand))
  {
    var k := ConstsOf(arg, sampleRate, drand);
    assert k.maxWarpFreq * k.maxphaseBySr == 1.0 / k.minSweep;
  }

  /** The design's invariant between two samples: the warped clock lies in [0, 2], the clip
      proportion in [0, 1], and the frequency and the one a hard sync restores are at most
      the sample rate. */
  predicate InCycle(s: Unit, k: OldConsts)
  {
    && 0.0 <= s.warpedPhase <= 2.0 && 0.0 <= s.clip <= 1.0
    && PhaseInc(k, s.freq) <= 2.0 && PhaseInc(k, s.nonSyncFreq) <= 2.0
  }

  /** Below Max_Warp_Freq the shortest sweep of a sample is shorter than half a cycle. */
  lemma BelowThreshold(k: OldConsts, freq: real)
    requires CycleConsts(k) && 0.0 <= freq < k.maxWarpFreq
    ensures PhaseInc(k, freq) * k.minSweep < 1.0
  {
    MulStrict(k.maxphaseBySr, freq, k.maxWarpFreq);
    MulStrict(k.minSweep, PhaseInc(k, freq), k.maxphaseBySr * k.maxWarpFreq);
    assert k.minSweep * (k.maxphaseBySr * k.maxWarpFreq) == k.maxWarpFreq * k.maxphaseBySr * k.minSweep;
    Below(k.minSweep * PhaseInc(k, freq), k.minSweep * (k.maxphaseBySr * k.maxWarpFreq), 1.0);
    Commute(k.minSweep, PhaseInc(k, freq), 1.0);
  }

  /** The frequency a hard sync ramps toward, 2 * Max_Warp_Freq, is at most the sample rate
      (at most a quarter of it). */
  lemma BoostWithinRate(k: OldConsts)
    requires CycleConsts(k)
    ensures PhaseInc(k, 2.0 * k.maxWarpFreq) <= 2.0
  {
    PositiveProduct(k.maxWarpFreq, k.maxphaseBySr);
    MulStrict(k.maxWarpFreq * k.maxphaseBySr, 4.0, k.minSweep);
    assert PhaseInc(k, 2.0 * k.maxWarpFreq) == 2.0 * (k.maxWarpFreq * k.maxphaseBySr);
  }

  /** A frequency between two frequencies of at most the sample rate is at most the sample
      rate. */
  lemma RateBetween(k: OldConsts, a: real, x: real, b: real)
    requires ConstsValid(k) && Min(a, b) <= x <= Max(a, b)
    requires PhaseInc(k, a) <= 2.0 && PhaseInc(k, b) <= 2.0
    ensures PhaseInc(k, x) <= 2.0
  {
    if x <= a {
      RateBelow(k, x, a);
    } else {
      RateBelow(k, x, b);
    }
  }

  lemma RateBelow(k: OldConsts, x: real, a: real)
    requires ConstsValid(k) && x <= a && PhaseInc(k, a) <= 2.0
    ensures PhaseInc(k, x) <= 2.0
  {
    NonNegativeProduct(k.maxphaseBySr, a - x);
    assert PhaseInc(k, a) - PhaseInc(k, x) == k.maxphaseBySr * (a - x);
    assert PhaseInc(k, x) <= PhaseInc(k, a);
  }

  /** Below Max_Warp_Freq, with a clip proportion in [0, 1], the segments of a sample leave
      the warp at least 0, and past 2 only when the linear clock passes 2 with the increment. */
  lemma SweepKeepsCycle(k: OldConsts, freq: real, clip: real, skew: real, phase: real, warp: real,
                        cos: Cosine)
    requires CycleConsts(k) && 0.0 <= clip <= 1.0 && 0.0 <= freq < k.maxWarpFreq && 0.0 <= warp <= 2.0
    ensures var c := Segments(OldEnv(k, PhaseInc(k, freq), clip, skew), phase, warp, cos);
            0.0 <= c.warp && (c.warp > 2.0 ==> c.phase + PhaseInc(k, freq) > 2.0)
  {
    BelowThreshold(k, freq);
    ShortSweepKeepsCycle(k, freq, clip, skew, phase, warp, cos);
  }

  /** When the shortest sweep of a sample is shorter than half a cycle, with a clip
      proportion in [0, 1], the segments of a sample leave the warp at least 0, and past 2
      only when the linear clock passes 2 with the increment. */
  lemma ShortSweepKeepsCycle(k: OldConsts, freq: real, clip: real, skew: real, phase: real, warp: real,
                        cos: Cosine)
    requires ConstsValid(k) && 0.0 <= clip <= 1.0 && freq >= 0.0 && 0.0 <= warp <= 2.0
    requires PhaseInc(k, freq) * k.minSweep < 1.0
    ensures var c := Segments(OldEnv(k, PhaseInc(k, freq), clip, skew), phase, warp, cos);
            0.0 <= c.warp && (c.warp > 2.0 ==> c.phase + PhaseInc(k, freq) > 2.0)
  {
    EnvFitsHalf(OldEnv(k, PhaseInc(k, freq), clip, skew), PhaseInc(k, freq), k.minSweep, clip, skew);
    SegmentsKeepCycle(OldEnv(k, PhaseInc(k, freq), clip, skew), phase, warp, cos);
  }

  /** An Env whose shortest sweep ms, of m >= 1 increments, is shorter than half a cycle:
      ms is at least one increment and the down sweep fits the first half. */
  lemma EnvFitsHalf(e: Env, inc: real, m: real, clip: real, skew: real)
    requires inc >= 0.0 && m >= 1.0 && inc * m < 1.0 && 0.0 <= clip <= 1.0
    requires e.phaseInc == inc && e.minSweep == inc * m
    requires e.midpoint == Clamp(skew, e.minSweep, 2.0 - e.minSweep)
    requires e.downLength == DownLength(clip, e.midpoint, e.minSweep)
    ensures e.phaseInc <= e.minSweep && e.downLength <= e.midpoint
  {
    IncWithinSweep(inc, m);
    SweepFitsHalf(clip, e.midpoint, e.minSweep);
  }

  /** An increment is at most that increment times a factor of at least 1. */
  lemma IncWithinSweep(inc: real, m: real)
    requires inc >= 0.0 && m >= 1.0
    ensures inc <= inc * m
  {
    NonNegativeProduct(inc, m - 1.0);
    assert inc * m - inc == inc * (m - 1.0);
  }

  /** Shaping a sample at a frequency of at most the sample rate, with a clip proportion in
      [0, 1], leaves the warp at least 0, and past 2 only when the linear clock passes 2
      with the increment; the clip stays in [0, 1]. */
  lemma ShapedKeepsCycle(s: Unit, k: OldConsts, rt: Rates, b: Buffers, i: int, cos: Cosine)
    requires CycleConsts(k) && s.freq >= 0.0
    requires 0 <= i && (rt.clip == AudioRate ==> i < |b.clip|) && (rt.skew == AudioRate ==> i < |b.skew|)
    requires 0.0 <= s.warpedPhase <= 2.0 && 0.0 <= s.clip <= 1.0
    ensures var r := Shaped(s, k, rt, b, i, cos).s;
            && 0.0 <= r.warpedPhase && 0.0 <= r.clip <= 1.0
            && (r.warpedPhase > 2.0 ==> r.phase + PhaseInc(k, s.freq) > 2.0)
  {
    if s.freq < k.maxWarpFreq {
      var q := Reread(s, rt, b, i);
      SweepKeepsCycle(k, s.freq, q.clip, q.skew, s.phase, s.warpedPhase, cos);
    }
  }

  /** The wraparound restores the design's invariant: a warp past 2 comes with a linear
      clock past 2, so both restart, and the frequency a hard sync restores is at most the
      sample rate. */
  lemma WrapKeepsCycle(s: Unit, k: OldConsts, rt: Rates, b: Buffers, i: int)
    requires ConstsValid(k) && s.freq >= 0.0 && s.hardsyncPhase >= 0.0 && s.hardsyncInc >= 0.0
    requires 0 <= i && (rt.clip == AudioRate ==> i < |b.clip|) && (rt.skew == AudioRate ==> i < |b.skew|)
    requires 0.0 <= s.warpedPhase && 0.0 <= s.clip <= 1.0 && (s.warpedPhase > 2.0 ==> s.phase > 2.0)
    requires PhaseInc(k, s.freq) <= 2.0 && PhaseInc(k, s.nonSyncFreq) <= 2.0
    ensures InCycle(Wrap(s, k, rt, b, i).s, k)
  {
  }

  /** One sample keeps the design's invariant when the frequency the inputs' step gives is
      at most the sample rate: a hard sync ramps only toward 2 * Max_Warp_Freq, and a warp
      past 2 comes with a linear clock past 2, which the wraparound catches. */
  lemma SampleKeepsCycle(s: Unit, k: OldConsts, rt: Rates, inc: Incs, b: Buffers, i: int, fire: bool,
                         cos: Cosine)
    requires CycleConsts(k) && Ready(s, rt) && 0 <= i
    requires (rt.freq == AudioRate ==> i < |b.freq|)
    requires (rt.clip == AudioRate ==> i < |b.clip|) && (rt.skew == AudioRate ==> i < |b.skew|)
    requires InCycle(s, k) && PhaseInc(k, Stepped(s, rt, inc, b, i).freq) <= 2.0
    ensures var r := Sample(s, k, rt, inc, b, i, fire, cos);
            r.Some? ==> InCycle(r.value.s, k)
  {
    var s1 := Stepped(s, rt, inc, b, i);
    if s1.freq >= 0.0 {
      var s2 := Prepared(s1, k, fire, cos);
      BoostWithinRate(k);
      RateBetween(k, s1.freq, s2.freq, 2.0 * k.maxWarpFreq);
      ShapedKeepsCycle(s2, k, rt, b, i, cos);
      var sh := Shaped(s2, k, rt, b, i, cos);
      WrapKeepsCycle(sh.s.(phase := sh.s.phase + PhaseInc(k, s2.freq)), k, rt, b, i);
    }
  }

  /** The frequency inputs of the rest of a block, from index i, are at most the sample rate:
      every audio-rate sample, or, without an audio-rate sync input, the end of the
      control-rate ramp. */
  predicate FeedInRate(s: Unit, k: OldConsts, rt: Rates, inc: Incs, b: Buffers, i: int, n: int)
    requires i <= n
  {
    && (rt.freq == AudioRate ==> forall j :: 0 <= j < n && j < |b.freq| ==> PhaseInc(k, b.freq[j]) <= 2.0)
    && (rt.freq == ControlRate ==> !rt.syncAr && PhaseInc(k, Steps(s.freq, inc.freq, n - i)) <= 2.0)
  }

  /** The input step of a pass lies within the sample rate: an audio-rate sample is read
      through fmax, and a control-rate step lies between the current frequency and the end
      of the ramp. */
  lemma StepInRate(s: Unit, k: OldConsts, rt: Rates, inc: Incs, b: Buffers, i: int, n: int)
    requires ConstsValid(k) && 0 <= i < n && Supplies(rt, b, n)
    requires PhaseInc(k, s.freq) <= 2.0 && FeedInRate(s, k, rt, inc, b, i, n)
    ensures PhaseInc(k, Stepped(s, rt, inc, b, i).freq) <= 2.0
  {
    if rt.freq == ControlRate {
      FirstStepBetween(s.freq, inc.freq, n - i);
      RateBetween(k, s.freq, s.freq + inc.freq, Steps(s.freq, inc.freq, n - i));
    } else if rt.freq == AudioRate {
      assert PhaseInc(k, b.freq[i]) <= 2.0;
    }
  }

  /** A pass of the sample loop keeps the design's invariant and leaves the rest of the
      block's frequency inputs within the sample rate. */
  lemma TickKeepsCycle(s: Unit, k: OldConsts, rt: Rates, inc: Incs, b: Buffers, i: int, n: int, sync: int,
                       cos: Cosine)
    requires CycleConsts(k) && Runnable(s, k, rt, b, i, n, sync) && i < n
    requires InCycle(s, k) && FeedInRate(s, k, rt, inc, b, i, n)
    ensures var t := TickOf(s, k, rt, inc, b, i, n, sync, cos);
            t.Some? ==> InCycle(t.value.s, k) && FeedInRate(t.value.s, k, rt, inc, b, i + 1, n)
  {
    StepInRate(s, k, rt, inc, b, i, n);
    SampleKeepsCycle(s, k, rt, inc, b, i, i == sync, cos);
    if TickOf(s, k, rt, inc, b, i, n, sync, cos).Some? {
      TickSteps(s, k, rt, inc, b, i, n, sync, cos);
    }
  }

  /** The sample loop from index i keeps the design's invariant. */
  lemma {:induction false} RunKeepsCycle(s: Unit, k: OldConsts, rt: Rates, inc: Incs, b: Buffers, sync: int,
                                         i: int, n: int, cos: Cosine)
    requires CycleConsts(k) && Runnable(s, k, rt, b, i, n, sync)
    requires InCycle(s, k) && FeedInRate(s, k, rt, inc, b, i, n)
    ensures var r := Run(s, k, rt, inc, b, sync, i, n, cos);
            r.Some? ==> InCycle(r.value.s, k)
    decreases n - i
  {
    if i == n {
      assert Run(s, k, rt, inc, b, sync, i, n, cos) == Some(Progress(s, sync, []));
    } else {
      TickKeepsCycle(s, k, rt, inc, b, i, n, sync, cos);
      var t := TickOf(s, k, rt, inc, b, i, n, sync, cos);
      if t.Some? {
        RunNext(s, k, rt, inc, b, sync, i, n, cos);
        RunKeepsCycle(t.value.s, k, rt, inc, b, t.value.sync, i + 1, n, cos);
      }
    }
  }

  /** next keeps the design's invariant (the warped clock in [0, 2]) when the block's
      frequency inputs are at most the sample rate: every audio-rate sample, or the
      control-rate target without an audio-rate sync input. */
  lemma BlockKeepsCycle(s: Unit, k: OldConsts, rt: Rates, b: Buffers, n: int, cos: Cosine)
    requires CycleConsts(k) && Ready(s, rt) && n >= 1 && Supplies(rt, b, n) && InCycle(s, k)
    requires rt.freq == AudioRate ==> forall j :: 0 <= j < n ==> PhaseInc(k, b.freq[j]) <= 2.0
    requires rt.freq == ControlRate ==> !rt.syncAr && PhaseInc(k, b.freq[0]) <= 2.0
    ensures var r := Block(s, k, rt, b, n, cos);
            r.Some? ==> InCycle(r.value.s, k)
  {
    var inc := BlockIncs(s, rt, b, n);
    var sync := if rt.syncAr then Newer.FirstSync(b.sync, 0, n) else -1;
    StepsCover(s.freq, inc.freq, n);
    RunKeepsCycle(s, k, rt, inc, b, sync, 0, n, cos);
  }

  // ---------------------------------------------------------------------------------------
  //  The unit generator
  // ---------------------------------------------------------------------------------------

  class Squine {
    var freq: real
    var nonSyncFreq: real
    var clip: real
    var skew: real
    var phase: real
    var warpedPhase: real
    var hardsyncPhase: real
    var hardsyncInc: real

    const rates: Rates
    const consts: OldConsts

    /** The constructor, on the host buffers of the first block (one sample), the rates of
        the inputs, the first values of the minimum sweep and start phase inputs, the random
        number drand() would return, and the values the clock fields hold before anything
        is written to them (init_phase is skipped for a start phase of 0). It ends by
        computing the first sample, as next(1). */
    constructor (sampleRate: real, rt: Rates, b: Buffers, minSweepArg: real, startPhaseArg: real, drand: real,
                 residualPhase: real, residualWarp: real, soundOut: array<real>, cos: Cosine)
      requires sampleRate > 0.0 && soundOut.Length >= 1 && Supplies(rt, b, 1)
      requires rt.freq == AudioRate || b.freq[0] >= 0.0
      modifies soundOut
      ensures Valid() && rates == rt
      ensures consts == ConstsOf(minSweepArg, sampleRate, drand)
      ensures var r := Block(Started(consts, rt, b, startPhaseArg, residualPhase, residualWarp), consts, rt, b, 1, cos);
              r.Some? && Snap() == r.value.s && soundOut[..1] == r.value.out
    {
      rates := rt;
      consts := ConstsOf(minSweepArg, sampleRate, drand);
      phase, warpedPhase := residualPhase, residualWarp;
      new;
      Start(b, startPhaseArg);
      BlockDefined(Snap(), consts, rates, b, 1, cos);
      Next(1, b, soundOut, cos);
    }

    /** The constructor's work before next(1): the inputs' first values are read (the clip
        and the skew with the constructor's clamps), then the clocks are seeded from the
        start phase when it is not 0. */
    method Start(b: Buffers, startPhaseArg: real)
      requires ConstsValid(consts) && |b.freq| >= 1 && |b.clip| >= 1 && |b.skew| >= 1
      modifies this
      ensures Valid()
      ensures Snap() == Started(consts, rates, b, startPhaseArg, old(phase), old(warpedPhase))
    {
      freq := b.freq[0];
      nonSyncFreq := freq;
      clip := StartClip(b.clip[0]);
      skew := StartSkew(b.skew[0]);
      hardsyncPhase, hardsyncInc := 0.0, 0.0;
      var startphase := startPhaseArg;
      if startphase != 0.0 {
        startphase := if startphase < 0.0 then 1.25 else startphase;
        InitPhase(startphase);
      }
    }

    ghost function Snap(): Unit
      reads this
    {
      Unit(freq, nonSyncFreq, clip, skew, phase, warpedPhase, hardsyncPhase, hardsyncInc)
    }

    ghost predicate Valid()
      reads this
    {
      ConstsValid(consts) && Ready(Snap(), rates)
    }

    /** init_phase, at the unit's frequency, clip and skew. */
    method InitPhase(phaseIn: real)
      modifies this
      ensures Snap() == Seeded(old(Snap()), consts, phaseIn)
    {
      var e := OldEnv(consts, PhaseInc(consts, freq), clip, skew);
      var target := phaseIn;
      if target < 0.0 {
        target := 1.25;
      }
      if target > 2.0 {
        target := FMod(target, 2.0);
      }
      phase, warpedPhase := SeedSample(e, target);
    }

    /** hardsync_init, called with the unit's own frequency and warped phase. */
    method HardsyncInit()
      requires ConstsValid(consts)
      modifies this
      ensures Snap() == HardsyncStart(old(Snap()), consts)
    {
      if hardsyncPhase != 0.0 {
        return;
      }
      if warpedPhase == 2.0 {
        phase := 2.0;
        return;
      }
      if freq > consts.maxWarpFreq {
        return;
      }
      hardsyncInc := PI / consts.minSweep;
      hardsyncPhase := hardsyncInc * 0.5;
    }

    /** The head of the loop body: the control-rate ramps and the audio-rate frequency. */
    method StepInputs(inc: Incs, b: Buffers, i: int)
      requires 0 <= i && (rates.freq == AudioRate ==> i < |b.freq|)
      modifies this
      ensures Snap() == Stepped(old(Snap()), rates, inc, b, i)
    {
      if rates.freq == ControlRate {
        freq := freq + inc.freq;
        nonSyncFreq := freq;
      } else if rates.freq == AudioRate {
        freq := Max(b.freq[i], 0.0);
        nonSyncFreq := freq;
      }
      if rates.clip == ControlRate {
        clip := Clamp(clip + inc.clip, 0.0, 1.0);
      }
      if rates.skew == ControlRate {
        skew := Clamp(skew + inc.skew, -1.0, 1.0);
      }
    }

    /** A sync request at this sample, then the ramp of an active hard sync. */
    method PrepareSample(fire: bool, cos: Cosine)
      requires ConstsValid(consts) && 0.0 <= hardsyncPhase <= PI && hardsyncInc >= 0.0
      modifies this
      ensures Snap() == Prepared(old(Snap()), consts, fire, cos)
    {
      if fire {
        HardsyncInit();
      }
      if hardsyncPhase != 0.0 {
        var syncsweep := 0.5 * (1.0 - cos(hardsyncPhase));
        freq := Shared.Ramp(freq, 2.0 * consts.maxWarpFreq, syncsweep);
        hardsyncPhase := hardsyncPhase + hardsyncInc;
        if hardsyncPhase > PI {
          hardsyncPhase := PI;
          hardsyncInc := 0.0;
        }
      }
    }

    /** The slow path's reading of the audio-rate clip and skew at sample i. */
    method ReadShape(b: Buffers, i: int)
      requires 0 <= i && (rates.clip == AudioRate ==> i < |b.clip|) && (rates.skew == AudioRate ==> i < |b.skew|)
      modifies this
      ensures Snap() == Reread(old(Snap()), rates, b, i)
    {
      if rates.clip == AudioRate {
        clip := Shared.ClipOf(b.clip[i]);
      }
      if rates.skew == AudioRate {
        skew := Shared.SkewOf(b.skew[i]);
      }
    }

    /** The waveform shaping: the pure cosine at or above Max_Warp_Freq, otherwise first
        the half of the cycle, then the segment within it. */
    method ShapeSample(b: Buffers, i: int, phaseInc: real, cos: Cosine) returns (audio: real)
      requires ConstsValid(consts) && freq >= 0.0 && phaseInc == PhaseInc(consts, freq)
      requires 0 <= i && (rates.clip == AudioRate ==> i < |b.clip|) && (rates.skew == AudioRate ==> i < |b.skew|)
      modifies this
      ensures Shaping(Snap(), audio) == Shaped(old(Snap()), consts, rates, b, i, cos)
    {
      if freq >= consts.maxWarpFreq {
        audio := cos(PI * warpedPhase);
        phase := warpedPhase;
        warpedPhase := warpedPhase + phaseInc;
      } else {
        ReadShape(b, i);
        var e := OldEnv(consts, phaseInc, clip, skew);
        audio, phase, warpedPhase := HalvesSample(e, phase, warpedPhase, cos);
      }
    }

    /** The wraparound test after the linear clock has advanced; ending a hard sync scans
        the sync input again from the current sample i. */
    method WrapCycle(b: Buffers, i: int, n: int, sync: int, phaseInc: real) returns (newSync: int)
      requires ConstsValid(consts) && freq >= 0.0 && hardsyncPhase >= 0.0 && hardsyncInc >= 0.0
      requires phaseInc == PhaseInc(consts, freq)
      requires 0 <= i && (rates.clip == AudioRate ==> i < |b.clip|) && (rates.skew == AudioRate ==> i < |b.skew|)
      requires hardsyncPhase != 0.0 ==> n <= |b.sync|
      modifies this
      ensures var w := Wrap(old(Snap()), consts, rates, b, i);
              Snap() == w.s && newSync == (if w.rescan then Newer.FirstSync(b.sync, i, n) else sync)
    {
      newSync := sync;
      if warpedPhase >= 2.0 && phase >= 2.0 {
        if hardsyncPhase != 0.0 {
          warpedPhase, phase := 0.0, 0.0;
          hardsyncPhase, hardsyncInc := 0.0, 0.0;
          freq := nonSyncFreq;
          newSync := Newer.FindSync(b.sync, i, n);
        } else {
          phase := phase - 2.0;
          if phase > phaseInc {
            phase := phaseInc * 0.5;
          }
          if freq < consts.maxWarpFreq {
            ReadShape(b, i);
            var e := OldEnv(consts, phaseInc, clip, skew);
            warpedPhase := DownRestart(e, phase);
          } else {
            warpedPhase := phase;
          }
        }
      }
    }

    /** One pass of the sample loop. */
    method Tick(inc: Incs, b: Buffers, i: int, n: int, sync: int, cos: Cosine) returns (audio: real, newSync: int)
      requires Runnable(Snap(), consts, rates, b, i, n, sync) && i < n
      requires TickOf(Snap(), consts, rates, inc, b, i, n, sync, cos).Some?
      modifies this
      ensures TickOf(old(Snap()), consts, rates, inc, b, i, n, sync, cos) == Some(Ticked(Snap(), newSync, audio))
    {
      ghost var s0 := Snap();
      StepInputs(inc, b, i);
      PrepareSample(i == sync, cos);
      var phaseInc := PhaseInc(consts, freq);
      audio := ShapeSample(b, i, phaseInc, cos);
      phase := phase + phaseInc;
      newSync := WrapCycle(b, i, n, sync, phaseInc);
    }

    /** next(nSamples): scan the sync input, compute the control-rate increments, then the
        sample loop, which writes the block's samples into soundOut and nothing past them. */
    method Next(n: int, b: Buffers, soundOut: array<real>, cos: Cosine)
      requires Valid() && 1 <= n <= soundOut.Length && Supplies(rates, b, n)
      requires Block(Snap(), consts, rates, b, n, cos).Some?
      modifies this, soundOut
      ensures Valid()
      ensures var r := Block(old(Snap()), consts, rates, b, n, cos).value;
              Snap() == r.s && soundOut[..n] == r.out
      ensures soundOut[n..] == old(soundOut[n..])
    {
      var sync := -1;
      if rates.syncAr {
        sync := Newer.FindSync(b.sync, 0, n);
      }
      var inc := Increments(b, n);
      ghost var whole := Run(Snap(), consts, rates, inc, b, sync, 0, n, cos);
      assert soundOut[..0] + whole.value.out == whole.value.out;
      var i := 0;
      while i < n
        invariant Runnable(Snap(), consts, rates, b, i, n, sync)
        invariant whole.Some? && whole == Prefixed(soundOut[..i], Run(Snap(), consts, rates, inc, b, sync, i, n, cos))
        invariant soundOut[n..] == old(soundOut[n..])
        decreases n - i
      {
        sync := Step(inc, b, i, n, sync, soundOut, cos, whole);
        i := i + 1;
      }
      assert soundOut[..n] + [] == soundOut[..n];
    }

    /** The per-sample increments of the control-rate inputs over a block of n samples. */
    method Increments(b: Buffers, n: int) returns (inc: Incs)
      requires n >= 1 && |b.freq| >= 1 && |b.clip| >= 1 && |b.skew| >= 1
      ensures inc == BlockIncs(Snap(), rates, b, n)
    {
      var m := n as real;
      var freqInc := if rates.freq == ControlRate then (b.freq[0] - freq) / m else 0.0;
      var clipInc := if rates.clip == ControlRate then (Shared.ClipOf(b.clip[0]) - clip) / m else 0.0;
      var skewInc := if rates.skew == ControlRate then (Shared.SkewOf(b.skew[0]) - skew) / m else 0.0;
      inc := Incs(freqInc, clipInc, skewInc);
    }

    /** One pass of the loop of next: sample i is computed and stored. */
    method Step(inc: Incs, b: Buffers, i: int, n: int, sync: int, soundOut: array<real>, cos: Cosine,
                ghost whole: Option<Progress>) returns (newSync: int)
      requires Runnable(Snap(), consts, rates, b, i, n, sync) && i < n <= soundOut.Length
      requires whole.Some? && whole == Prefixed(soundOut[..i], Run(Snap(), consts, rates, inc, b, sync, i, n, cos))
      modifies this, soundOut
      ensures Runnable(Snap(), consts, rates, b, i + 1, n, newSync)
      ensures whole == Prefixed(soundOut[..i + 1], Run(Snap(), consts, rates, inc, b, newSync, i + 1, n, cos))
      ensures soundOut[n..] == old(soundOut[n..])
    {
      ghost var u := Snap();
      var audio;
      audio, newSync := Tick(inc, b, i, n, sync, cos);
      RunNext(u, consts, rates, inc, b, sync, i, n, cos);
      PrefixedTwice(old(soundOut[..i]), [audio], Run(Snap(), consts, rates, inc, b, newSync, i + 1, n, cos));
      soundOut[i] := audio;
      assert soundOut[..i + 1] == old(soundOut[..i]) + [audio];
    }
  }
}
