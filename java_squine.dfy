/** The Java revision of the squinewave oscillator (java/SquinewaveOscillator.java): its
    constants, its set_init_phase and the class whose methods update the fields in place, each
    proved to perform the corresponding step of module Squine on its state. */
module JavaSquine {
  import opened Libm
  import opened Shape
  import opened Squine

  // ---------------------------------------------------------------------------------------
  //  Constants derived from the minimum sweep length and the sample rate
  // ---------------------------------------------------------------------------------------

  /** The constructor's constants: the minimum sweep clamped into [4, 100], the phase
      increment per Hz, the pure-cosine threshold at which the shortest sweep spans a whole
      half cycle, and the hard sync ramp, which takes ln(min_sweep) samples per radian and aims
      at a third of the sample rate divided by ln(min_sweep). */
  function DeriveConsts(minSweepIn: real, sampleRate: real, ln: Logarithm): (k: Consts)
    requires sampleRate > 0.0
    ensures ConstsValid(k)
    ensures 4.0 <= minSweepIn <= 100.0 ==> k.minSweep == minSweepIn
    ensures minSweepIn < 4.0 ==> k.minSweep == 4.0
    ensures minSweepIn > 100.0 ==> k.minSweep == 100.0
    ensures DerivedFor(k, sampleRate, ln)
  {
    var k := ConstsFrom(Clamp(minSweepIn, 4.0, 100.0), sampleRate, ln);
    assert k.minSweep == Clamp(minSweepIn, 4.0, 100.0);
    k
  }

  /** The derived constants keep the warped clock in [0, 2]: the shortest sweep spans at most
      a half cycle below the threshold, and the sync target is at most the sample rate. */
  lemma DeriveConstsKeepCycle(minSweepIn: real, sampleRate: real, ln: Logarithm)
    requires sampleRate > 0.0
    ensures CycleConsts(DeriveConsts(minSweepIn, sampleRate, ln))
  {
    var k := DeriveConsts(minSweepIn, sampleRate, ln);
    DerivedCycleConsts(k, sampleRate, k.minSweep, ln(k.minSweep));
  }

  // ---------------------------------------------------------------------------------------
  //  Seeding the phase (set_init_phase)
  // ---------------------------------------------------------------------------------------

  /** set_init_phase: both clocks are set to the requested point of the symbolic phase
      (see Shape.SeedClocks) at the current frequency, clip and skew. */
  function Seeded(s: Osc, k: Consts, phaseIn: real): (r: Osc)
    requires ConstsValid(k) && Normalised(s)
    ensures r == s.(phase := r.phase, sweepPhase := r.sweepPhase)
    ensures var t := SeedTarget(phaseIn);
            && (t < 0.5 ==> r.sweepPhase == 2.0 * t)
            && (0.5 <= t < 1.0 ==> r.sweepPhase == 1.0)
            && (1.0 <= t < 1.5 ==> r.sweepPhase == 2.0 * t - 1.0)
            && (1.5 <= t ==> r.sweepPhase == 2.0)
  {
    var c := SeedAt(s.clip, s.skew, s.freq, k, phaseIn);
    s.(phase := c.phase, sweepPhase := c.warp)
  }

  /** The seeded clocks, which depend on the frequency, the clip and the skew only. */
  function SeedAt(clip: real, skew: real, freq: real, k: Consts, phaseIn: real): (c: Seed)
    requires ConstsValid(k) && 0.0 <= clip <= 1.0 && freq >= 0.0
    ensures var t := SeedTarget(phaseIn);
            && (t < 0.5 ==> c.warp == 2.0 * t)
            && (0.5 <= t < 1.0 ==> c.warp == 1.0)
            && (1.0 <= t < 1.5 ==> c.warp == 2.0 * t - 1.0)
            && (1.5 <= t ==> c.warp == 2.0)
  {
    SeedClocks(SweepEnv(clip, skew, k, PhaseInc(k, freq)), SeedTarget(phaseIn))
  }

  /** The wraparound needs both clocks at 2, so the linear clock alone can run past 2. At
      48 kHz with min_sweep 4: setFreq(480), setSkew(-0.9), set_init_phase(1.4), then
      setSkew(0.8) moves the midpoint under a clock already on the up sweep. One generate()
      brings the linear clock to exactly 2 with no wrap, and a second takes it past 2 while
      the cosine clock is still below 2 and no sync pulse is sent. */
  lemma LinearClockPassesTwo(ln: Logarithm, cos: Cosine)
    ensures var k := DeriveConsts(4.0, 48000.0, ln);
            var s0 := Initial().(freq := FreqOf(480.0), rawFreq := 480.0, skew := SkewOf(-0.9));
            var s1 := Seeded(s0, k, 1.4).(skew := SkewOf(0.8));
            var s2 := Step(s1, k, cos);
            var s3 := Step(s2, k, cos);
            && s2.phase == 2.0 && s2.sweepPhase < 2.0 && s2.syncOut == 0.0
            && s3.phase > 2.0 && s3.sweepPhase < 2.0 && s3.syncOut == 0.0
  {
    var k := DeriveConsts(4.0, 48000.0, ln);
    SeedOnRise(ln);
    var s1 := Seeded(Initial().(freq := FreqOf(480.0), rawFreq := 480.0, skew := SkewOf(-0.9)), k, 1.4)
                .(skew := SkewOf(0.8));
    RiseStep(s1, k, 1.98, 1.8, cos);
    RiseStep(Step(s1, k, cos), k, 2.0, 1.8 + 1.0 / 90.0, cos);
  }

  /** The seed of LinearClockPassesTwo: on the up sweep, with the skew then changed. */
  lemma SeedOnRise(ln: Logarithm)
    ensures var k := DeriveConsts(4.0, 48000.0, ln);
            var s := Seeded(Initial().(freq := FreqOf(480.0), rawFreq := 480.0, skew := SkewOf(-0.9)), k, 1.4)
                       .(skew := SkewOf(0.8));
            && k.minSweep == 4.0 && k.maxphaseBySr == 2.0 / 48000.0 && k.maxSweepFreq == 6000.0
            && k.maxSweepInc == 0.25
            && Normalised(s) && s.freq == 480.0 && s.rawFreq == 480.0 && s.clip == 1.0 && s.skew == 0.2
            && !s.syncIn && !s.negFreq && s.hardsyncPhase == 0.0 && s.phase == 1.98 && s.sweepPhase == 1.8
  {
    var k := DeriveConsts(4.0, 48000.0, ln);
    var s0 := Initial().(freq := FreqOf(480.0), rawFreq := 480.0, skew := SkewOf(-0.9));
    assert s0.freq == 480.0 && s0.skew == 1.9 && s0.clip == 1.0;
  }

  /** One generate() at 480 Hz on the up sweep of LinearClockPassesTwo: the linear clock
      advances by 0.02, the cosine clock by 0.02 / 1.8, and no wrap happens. */
  lemma RiseStep(s: Osc, k: Consts, phase: real, warp: real, cos: Cosine)
    requires ConstsValid(k) && k.minSweep == 4.0 && k.maxphaseBySr == 2.0 / 48000.0
    requires k.maxSweepFreq == 6000.0 && k.maxSweepInc == 0.25
    requires Normalised(s) && s.freq == 480.0 && s.rawFreq == 480.0 && s.clip == 1.0 && s.skew == 0.2
    requires !s.syncIn && !s.negFreq && s.hardsyncPhase == 0.0
    requires s.phase == phase && s.sweepPhase == warp && 1.9 <= phase <= 2.0 && 1.8 <= warp <= 1.9
    ensures var r := Step(s, k, cos);
            && r.freq == 480.0 && r.rawFreq == 480.0 && r.clip == 1.0 && r.skew == 0.2
            && !r.syncIn && !r.negFreq && r.hardsyncPhase == 0.0
            && r.phase == phase + 0.02 && r.sweepPhase == warp + 1.0 / 90.0 && r.syncOut == 0.0
  {
    assert PhaseInc(k, 480.0) == 0.02;
  }

  /** Seeding depends only on the request and the frequency, clip and skew, so seeding
      again with the same request changes nothing. */
  lemma SeededIdempotent(s: Osc, k: Consts, phaseIn: real)
    requires ConstsValid(k) && Normalised(s)
    ensures Seeded(Seeded(s, k, phaseIn), k, phaseIn) == Seeded(s, k, phaseIn)
  {
    var r := Seeded(s, k, phaseIn);
    assert r.freq == s.freq && r.clip == s.clip && r.skew == s.skew;
    assert Normalised(r);
  }

  // ---------------------------------------------------------------------------------------
  //  The oscillator object
  // ---------------------------------------------------------------------------------------

  /** The Java class: the inputs, outputs and clocks are fields that the setters and generate
      update in place; the constants derived from the minimum sweep and the sample rate are
      fixed by the constructor. */
  class SquinewaveOscillator {
    var freq: real
    var clip: real
    var skew: real
    var syncIn: bool
    var rawFreq: real
    var negFreq: bool
    var audioOut: real
    var syncOut: real
    var phase: real
    var sweepPhase: real
    var hardsyncPhase: real
    var hardsyncInc: real

    const minSweep: real
    const maxphaseBySr: real
    const maxSweepFreq: real
    const maxSyncFreq: real
    const syncPhaseInc: real
    const maxSweepInc: real

    function K(): Consts
    {
      Consts(minSweep, maxphaseBySr, maxSweepFreq, maxSyncFreq, syncPhaseInc, maxSweepInc)
    }

    ghost function Snap(): Osc
      reads this
    {
      Osc(freq, clip, skew, syncIn, rawFreq, negFreq, audioOut, syncOut, phase, sweepPhase,
          hardsyncPhase, hardsyncInc)
    }

    ghost predicate Valid()
      reads this
    {
      ConstsValid(K()) && Normalised(Snap())
    }

    /** SquinewaveOscillator(phase_in, min_sweep_in, sample_rate). */
    constructor (phaseIn: real, minSweepIn: real, sampleRate: real, ln: Logarithm)
      requires sampleRate > 0.0
      ensures Valid()
      ensures K() == DeriveConsts(minSweepIn, sampleRate, ln)
      ensures Snap() == Seeded(Initial(), K(), phaseIn)
    {
      var ms := Clamp(minSweepIn, 4.0, 100.0);
      minSweep := ms;
      maxSweepInc := 1.0 / ms;
      maxphaseBySr := 2.0 / sampleRate;
      maxSweepFreq := sampleRate / (2.0 * ms);
      maxSyncFreq := sampleRate / (3.0 * ln(ms));
      syncPhaseInc := 1.0 / ln(ms);
      freq, clip, skew := 220.0, 1.0, 0.0;
      phase, sweepPhase, hardsyncPhase := 0.0, 0.0, 0.0;
      syncIn, rawFreq, negFreq, audioOut, syncOut, hardsyncInc := false, 0.0, false, 0.0, 0.0, 0.0;
      new;
      assert K() == DeriveConsts(minSweepIn, sampleRate, ln);
      assert Valid() && Snap() == Initial();
      SetInitPhase(phaseIn);
    }

    function GetMinSweep(): (m: real)
      requires ConstsValid(K())
      ensures 4.0 <= m <= 100.0 && m == K().minSweep
    {
      minSweep
    }

    method SetFreq(x: real)
      requires Valid()
      modifies this
      ensures Valid() && Snap() == old(Snap()).(freq := FreqOf(x), rawFreq := x)
    {
      freq := Clamp(if x < 0.0 then -x else x, 0.0, MAX_FREQ);
      rawFreq := x;
    }

    method SetSkew(x: real)
      requires Valid()
      modifies this
      ensures Valid() && Snap() == old(Snap()).(skew := SkewOf(x))
    {
      skew := 1.0 - Clamp(x, -1.0, 1.0);
    }

    method SetClip(x: real)
      requires Valid()
      modifies this
      ensures Valid() && Snap() == old(Snap()).(clip := ClipOf(x))
    {
      clip := 1.0 - Clamp(x, 0.0, 1.0);
    }

    method SetSync(x: real)
      requires Valid()
      modifies this
      ensures Valid() && Snap() == old(Snap()).(syncIn := x >= SYNC_TRIG)
    {
      syncIn := x >= SYNC_TRIG;
    }

    method GetSample() returns (r: real)
      requires Valid()
      ensures r == Snap().audioOut && -1.0 <= r <= 1.0
    {
      r := audioOut;
    }

    method GetSync() returns (r: real)
      requires Valid()
      ensures r == Snap().syncOut && (r == 0.0 || r == 1.0)
    {
      r := syncOut;
    }

    method GetPhase() returns (r: real)
      ensures r == Snap().phase
    {
      r := phase;
    }

    /** hardsync_init, on the fields it is called with. */
    method HardsyncInit()
      requires Valid()
      modifies this
      ensures Valid() && Snap() == HardsyncStart(old(Snap()), K())
    {
      if hardsyncPhase != 0.0 {
        return;
      }
      if sweepPhase == 2.0 {
        phase := 2.0;
        return;
      }
      if freq > maxSyncFreq {
        return;
      }
      hardsyncInc := syncPhaseInc;
      hardsyncPhase := hardsyncInc * 0.5;
    }

    /** generate: one sample, in two halves. */
    method Generate(cos: Cosine)
      requires Valid()
      modifies this
      ensures Valid() && Snap() == Step(old(Snap()), K(), cos)
    {
      PrepareSample(cos);
      AdvanceSample(cos);
    }

    /** The first half of generate: serve a sync request, advance the ramp of an active hard
        sync and apply the through-zero logic. */
    method PrepareSample(cos: Cosine)
      requires Valid()
      modifies this
      ensures Valid() && Snap() == Prepared(old(Snap()), K(), cos)
    {
      if syncIn {
        HardsyncInit();
        syncIn := false;
      }
      RampSample(cos);
      ThroughZeroSample();
    }

    /** The ramp of an active hard sync. */
    method RampSample(cos: Cosine)
      modifies this
      ensures Snap() == SyncRamp(old(Snap()), K(), cos)
    {
      if hardsyncPhase != 0.0 {
        var syncsweep := 0.5 * (1.0 - cos(hardsyncPhase));
        freq := Ramp(freq, maxSyncFreq, syncsweep);
        hardsyncPhase := hardsyncPhase + hardsyncInc;
        if hardsyncPhase > PI {
          hardsyncPhase := PI;
          hardsyncInc := 0.0;
        }
      }
    }

    /** The through-zero logic. */
    method ThroughZeroSample()
      modifies this
      ensures Snap() == ThroughZero(old(Snap()))
    {
      var zeroCrossing := (rawFreq < 0.0) != negFreq;
      if zeroCrossing && hardsyncPhase == 0.0 {
        phase := 1.5 - phase;
        if phase < 0.0 {
          phase := phase + 2.0;
        }
        sweepPhase := 2.0 - sweepPhase;
      }
      negFreq := rawFreq < 0.0;
      if negFreq {
        skew := Clamp(2.0 - skew, 0.0, 2.0);
      }
    }

    /** The second half of generate: shape the waveform, advance the linear clock and test
        for the end of the cycle. */
    method AdvanceSample(cos: Cosine)
      requires Valid()
      modifies this
      ensures Valid() && Snap() == Advance(old(Snap()), K(), cos)
    {
      var phaseInc := PhaseInc(K(), freq);
      ShapeSample(phaseInc, cos);
      phase := phase + phaseInc;
      WrapCycle(phaseInc);
    }

    /** generate's waveform shaping: the pure cosine at or above the threshold frequency,
        otherwise the segment the clocks are on. */
    method ShapeSample(phaseInc: real, cos: Cosine)
      requires Valid() && phaseInc == PhaseInc(K(), freq)
      modifies this
      ensures Snap() == Shaped(old(Snap()), K(), phaseInc, cos)
    {
      var audio, ph, warp;
      if freq >= maxSweepFreq {
        audio, ph, warp := cos(PI * sweepPhase), sweepPhase, sweepPhase + phaseInc;
      } else {
        var e := SweepEnv(clip, skew, K(), phaseInc);
        audio, ph, warp := SegmentSample(e, phase, sweepPhase, cos);
      }
      audioOut, phase, sweepPhase := audio, ph, warp;
    }

    /** generate's end-of-cycle test, after the linear clock has advanced. */
    method WrapCycle(phaseInc: real)
      requires ConstsValid(K()) && 0.0 <= clip <= 1.0 && freq >= 0.0 && phaseInc == PhaseInc(K(), freq)
      modifies this
      ensures Snap() == Wrap(old(Snap()), K(), phaseInc)
    {
      if sweepPhase >= 2.0 && phase >= 2.0 {
        if hardsyncPhase != 0.0 {
          sweepPhase, phase := 0.0, 0.0;
          hardsyncPhase, hardsyncInc := 0.0, 0.0;
        } else {
          phase := phase - 2.0;
          if phase > phaseInc {
            phase := phaseInc * 0.5;
          }
          if freq < maxSweepFreq {
            var e := SweepEnv(clip, skew, K(), phaseInc);
            sweepPhase := DownRestart(e, phase);
          } else {
            sweepPhase := phase;
          }
        }
        syncOut := 1.0;
      } else {
        syncOut := 0.0;
      }
    }

    /** set_init_phase: the request is brought onto [0, 2], then both clocks are seeded at
        it. */
    method SetInitPhase(phaseIn: real)
      requires Valid()
      modifies this
      ensures Valid() && Snap() == Seeded(old(Snap()), K(), phaseIn)
    {
      var phaseInc := PhaseInc(K(), freq);
      var e := SweepEnv(clip, skew, K(), phaseInc);
      var target := phaseIn;
      if target < 0.0 {
        target := 1.25;
      }
      if target > 2.0 {
        target := FMod(target, 2.0);
      }
      phase, sweepPhase := SeedSample(e, target);
    }
  }

  /** The constructor without arguments: start at the upward zero crossing, with a minimum
      sweep drawn from [4, 14) (random stands for the value Math.random() returns) at 48 kHz. */
  method NewDefault(random: real, ln: Logarithm) returns (o: SquinewaveOscillator)
    requires 0.0 <= random < 1.0
    ensures fresh(o) && o.Valid()
    ensures o.K() == DeriveConsts(4.0 + random * 10.0, 48000.0, ln)
    ensures 4.0 <= o.K().minSweep < 14.0
    ensures o.Snap() == Seeded(Initial(), o.K(), -1.0)
  {
    o := new SquinewaveOscillator(-1.0, 4.0 + random * 10.0, 48000.0, ln);
  }
}
