/** The Rust revision of the squinewave oscillator (rust/src/lib.rs): `SquineConfig::new`, its
    set_init_phase and the struct `Squinewave` whose methods update the fields in place, each
    proved to perform the corresponding step of module Squine on its state.

    Two details differ from the Java revision and are kept as written: the constants other
    than the minimum sweep are derived from the argument before it is clamped, and
    set_init_phase clamps the skew with the minimum sweep in samples rather than with the
    shortest sweep on the phase scale. */
module RustSquine {
  import opened Libm
  import opened Shape
  import opened Squine
  import JavaSquine

  // ---------------------------------------------------------------------------------------
  //  SquineConfig::new
  // ---------------------------------------------------------------------------------------

  /** SquineConfig::new: the minimum sweep is clamped into [4, 100], but the cap on the warp,
      the pure-sine threshold and both sync constants use the argument as given. The
      argument must exceed 1: at 1 the logarithm is 0 and at or below it the divisions and
      the logarithm leave the reals. */
  function Config(minSweep: real, sampleRate: real, ln: Logarithm): (k: Consts)
    requires minSweep > 1.0 && sampleRate > 0.0
    ensures ConstsValid(k)
    ensures k.minSweep == Clamp(minSweep, 4.0, 100.0)
    ensures k.maxphaseBySr * sampleRate == 2.0
    ensures k.maxSweepInc * minSweep == 1.0
    ensures k.maxSweepFreq * (2.0 * minSweep) == sampleRate
    ensures k.maxSyncFreq * 3.0 == sampleRate * k.syncPhaseInc
    ensures k.syncPhaseInc * ln(minSweep) == 1.0
  {
    var l := ln(minSweep);
    Consts(Clamp(minSweep, 4.0, 100.0), 2.0 / sampleRate, sampleRate / (2.0 * minSweep),
           sampleRate / (3.0 * l), 1.0 / l, 1.0 / minSweep)
  }

  /** With an argument of at least 4 the constants keep the warped clock in [0, 2]. Below 4
      the threshold is computed from the argument while the shortest sweep is clamped up to 4,
      so the shortest sweep can exceed a half cycle below the threshold. */
  lemma ConfigKeepsCycle(minSweep: real, sampleRate: real, ln: Logarithm)
    requires minSweep >= 4.0 && sampleRate > 0.0
    ensures CycleConsts(Config(minSweep, sampleRate, ln))
  {
    DerivedCycleConsts(Config(minSweep, sampleRate, ln), sampleRate, minSweep, ln(minSweep));
  }

  /** For a minimum sweep in [4, 100] the Rust and Java constants coincide; outside it the
      Rust cap on the warp is not the reciprocal of the clamped minimum sweep, so the two
      revisions disagree. */
  lemma ConfigMatchesJavaOnlyInRange(minSweep: real, sampleRate: real, ln: Logarithm)
    requires minSweep > 1.0 && sampleRate > 0.0
    ensures 4.0 <= minSweep <= 100.0 ==>
      Config(minSweep, sampleRate, ln) == JavaSquine.DeriveConsts(minSweep, sampleRate, ln)
    ensures !(4.0 <= minSweep <= 100.0) ==>
      Config(minSweep, sampleRate, ln).maxSweepInc != JavaSquine.DeriveConsts(minSweep, sampleRate, ln).maxSweepInc
  {
    var r := Config(minSweep, sampleRate, ln);
    var j := JavaSquine.DeriveConsts(minSweep, sampleRate, ln);
    if minSweep < 4.0 {
      assert j.maxSweepInc == 0.25;
    } else if minSweep > 100.0 {
      assert j.maxSweepInc == 0.01;
    }
  }

  // ---------------------------------------------------------------------------------------
  //  Seeding the phase (set_init_phase)
  // ---------------------------------------------------------------------------------------

  /** The sweep quantities set_init_phase uses: the shortest sweep of the current increment,
      but a midpoint clamped into [consts.min_sweep, 2 - consts.min_sweep], an empty range
      since the minimum sweep is at least 4; Clamp then returns its lower bound. */
  function SeedEnv(clip: real, skew: real, freq: real, k: Consts): (e: Env)
    requires ConstsValid(k) && 0.0 <= clip <= 1.0 && 0.0 <= skew <= 2.0 && freq >= 0.0
    ensures e.midpoint == k.minSweep
    ensures e.phaseInc == PhaseInc(k, freq) && e.minSweep == e.phaseInc * k.minSweep
    ensures e.upLength >= e.minSweep >= 0.0
  {
    var phaseInc := PhaseInc(k, freq);
    var ms := phaseInc * k.minSweep;
    var midpoint := Clamp(skew, k.minSweep, 2.0 - k.minSweep);
    NonNegativeProduct(phaseInc, k.minSweep);
    Env(phaseInc, ms, midpoint, DownLength(clip, midpoint, ms), UpLength(clip, midpoint, ms),
        k.maxSweepInc)
  }

  /** set_init_phase: both clocks are set to the requested point of the symbolic phase (see
      Shape.SeedClocks), mapped through the sweep quantities of SeedEnv. */
  function Seeded(s: Osc, k: Consts, phaseIn: real): (r: Osc)
    requires ConstsValid(k) && Normalised(s)
    ensures r == s.(phase := r.phase, sweepPhase := r.sweepPhase)
    ensures var t := SeedTarget(phaseIn);
            && (t < 0.5 ==> r.sweepPhase == 2.0 * t)
            && (0.5 <= t < 1.0 ==> r.sweepPhase == 1.0)
            && (1.0 <= t < 1.5 ==> r.sweepPhase == 2.0 * t - 1.0)
            && (1.5 <= t ==> r.sweepPhase == 2.0)
  {
    var c := SeedClocks(SeedEnv(s.clip, s.skew, s.freq, k), SeedTarget(phaseIn));
    s.(phase := c.phase, sweepPhase := c.warp)
  }

  /** Because the midpoint is clamped with the minimum sweep in samples rather than with the
      shortest sweep on the phase scale, seeding does not depend on the skew. */
  lemma SeededIgnoresSkew(s: Osc, k: Consts, phaseIn: real, skew: real)
    requires ConstsValid(k) && Normalised(s) && 0.0 <= skew <= 2.0
    ensures Seeded(s.(skew := skew), k, phaseIn) == Seeded(s, k, phaseIn).(skew := skew)
  {
    assert SeedEnv(s.clip, skew, s.freq, k) == SeedEnv(s.clip, s.skew, s.freq, k);
  }

  /** For the same reason a seed on the second half of the symbolic phase puts the linear
      clock at or past the end of the cycle at 2, and on the up sweep at least the minimum
      sweep in samples past 0. The default request (-1, the upward zero crossing) is such a
      seed. */
  lemma SeedOnSecondHalfLeavesCycle(s: Osc, k: Consts, phaseIn: real)
    requires ConstsValid(k) && Normalised(s) && SeedTarget(phaseIn) >= 1.0
    ensures Seeded(s, k, phaseIn).phase >= 2.0
    ensures SeedTarget(phaseIn) < 1.5 ==> Seeded(s, k, phaseIn).phase >= k.minSweep
  {
    SeedPastMidpoint(SeedEnv(s.clip, s.skew, s.freq, k), SeedTarget(phaseIn));
  }

  /** On the second half a seed lies at or past the smaller of the midpoint and 2, and at
      or past the midpoint on the up sweep. */
  lemma SeedPastMidpoint(e: Env, t: real)
    requires e.midpoint >= 2.0 && e.upLength >= 0.0 && 1.0 <= t <= 2.0
    ensures SeedClocks(e, t).phase >= 2.0
    ensures t < 1.5 ==> SeedClocks(e, t).phase >= e.midpoint
  {
    if t < 1.5 {
      NonNegativeProduct(e.upLength, (t - 1.0) * 2.0);
    } else {
      var over := e.midpoint + e.upLength - 2.0;
      var w := (t - 1.5) * 2.0;
      assert SeedClocks(e, t).phase == e.midpoint + e.upLength - over * w;
      NonNegativeProduct(over, 1.0 - w);
    }
  }

  // ---------------------------------------------------------------------------------------
  //  The oscillator object
  // ---------------------------------------------------------------------------------------

  /** The struct Squinewave: the inputs, outputs and clocks are fields that the setters and
      generate update in place; the configuration is fixed when it is built. */
  class Squinewave {
    var freq: real
    var clip: real
    var skew: real
    var syncIn: bool
    var rawFreq: real
    var negFreq: bool
    var audioOut: real
    var syncOut: real
    var phase: real
    var sweepPhase: real
    var hardsyncPhase: real
    var hardsyncInc: real

    const consts: Consts

    ghost function Snap(): Osc
      reads this
    {
      Osc(freq, clip, skew, syncIn, rawFreq, negFreq, audioOut, syncOut, phase, sweepPhase,
          hardsyncPhase, hardsyncInc)
    }

    ghost predicate Valid()
      reads this
    {
      ConstsValid(consts) && Normalised(Snap())
    }

    /** Squinewave::new(min_sweep, sample_rate, phase_in). */
    constructor (minSweep: real, sampleRate: real, phaseIn: real, ln: Logarithm)
      requires minSweep > 1.0 && sampleRate > 0.0
      ensures Valid()
      ensures consts == Config(minSweep, sampleRate, ln)
      ensures Snap() == Seeded(Initial(), consts, phaseIn)
    {
      consts := Config(minSweep, sampleRate, ln);
      freq, clip, skew, syncIn := 220.0, 1.0, 0.0, false;
      phase, sweepPhase, hardsyncPhase, hardsyncInc := 0.0, 0.0, 0.0, 0.0;
      rawFreq, negFreq := 0.0, false;
      audioOut, syncOut := 0.0, 0.0;
      new;
      assert Valid() && Snap() == Initial();
      SetInitPhase(phaseIn);
    }

    /** update: the four setters in turn. */
    method Update(freqIn: real, clipIn: real, skewIn: real, sync: real)
      requires Valid()
      modifies this
      ensures Valid()
      ensures Snap() == old(Snap()).(freq := FreqOf(freqIn), rawFreq := freqIn, clip := ClipOf(clipIn),
                                     skew := SkewOf(skewIn), syncIn := sync >= SYNC_TRIG)
    {
      SetFreq(freqIn);
      SetClip(clipIn);
      SetSkew(skewIn);
      SetSync(sync);
    }

    method SetFreq(x: real)
      requires Valid()
      modifies this
      ensures Valid() && Snap() == old(Snap()).(freq := FreqOf(x), rawFreq := x)
    {
      freq := Clamp(if x < 0.0 then -x else x, 0.0, MAX_FREQ);
      rawFreq := x;
    }

    method SetClip(x: real)
      requires Valid()
      modifies this
      ensures Valid() && Snap() == old(Snap()).(clip := ClipOf(x))
    {
      clip := 1.0 - Clamp(x, 0.0, 1.0);
    }

    method SetSkew(x: real)
      requires Valid()
      modifies this
      ensures Valid() && Snap() == old(Snap()).(skew := SkewOf(x))
    {
      skew := 1.0 - Clamp(x, -1.0, 1.0);
    }

    method SetSync(x: real)
      requires Valid()
      modifies this
      ensures Valid() && Snap() == old(Snap()).(syncIn := x >= SYNC_TRIG)
    {
      syncIn := x >= SYNC_TRIG;
    }

    method Audio() returns (r: real)
      requires Valid()
      ensures r == Snap().audioOut && -1.0 <= r <= 1.0
    {
      r := audioOut;
    }

    method Sync() returns (r: real)
      requires Valid()
      ensures r == Snap().syncOut && (r == 0.0 || r == 1.0)
    {
      r := syncOut;
    }

    /** generate: one sample, in two halves. */
    method Generate(cos: Cosine)
      requires Valid()
      modifies this
      ensures Valid() && Snap() == Step(old(Snap()), consts, cos)
    {
      PrepareSample(cos);
      AdvanceSample(cos);
    }

    /** The first half of generate: serve a sync request, advance the ramp of an active hard
        sync and apply the through-zero logic. */
    method PrepareSample(cos: Cosine)
      requires Valid()
      modifies this
      ensures Valid() && Snap() == Prepared(old(Snap()), consts, cos)
    {
      if syncIn {
        HardsyncInit();
        syncIn := false;
      }
      RampSample(cos);
      ThroughZeroSample();
    }

    /** hardsync_init. */
    method HardsyncInit()
      requires Valid()
      modifies this
      ensures Valid() && Snap() == HardsyncStart(old(Snap()), consts)
    {
      if hardsyncPhase != 0.0 {
        return;
      }
      if sweepPhase == 2.0 {
        phase := 2.0;
        return;
      }
      if freq > consts.maxSyncFreq {
        return;
      }
      hardsyncInc := consts.syncPhaseInc;
      hardsyncPhase := hardsyncInc * 0.5;
    }

    /** The ramp of an active hard sync. */
    method RampSample(cos: Cosine)
      modifies this
      ensures Snap() == SyncRamp(old(Snap()), consts, cos)
    {
      if hardsyncPhase != 0.0 {
        var syncsweep := 0.5 * (1.0 - cos(hardsyncPhase));
        freq := Ramp(freq, consts.maxSyncFreq, syncsweep);
        hardsyncPhase := hardsyncPhase + hardsyncInc;
        if hardsyncPhase > PI {
          hardsyncPhase := PI;
          hardsyncInc := 0.0;
        }
      }
    }

    /** The through-zero block. */
    method ThroughZeroSample()
      modifies this
      ensures Snap() == ThroughZero(old(Snap()))
    {
      var zeroCrossing := (rawFreq < 0.0) != negFreq;
      if zeroCrossing && hardsyncPhase == 0.0 {
        phase := 1.5 - phase;
        if phase < 0.0 {
          phase := phase + 2.0;
        }
        sweepPhase := 2.0 - sweepPhase;
      }
      negFreq := rawFreq < 0.0;
      if negFreq {
        skew := Clamp(2.0 - skew, 0.0, 2.0);
      }
    }

    /** The second half of generate: shape the waveform, advance the linear clock and test
        for the end of the cycle. */
    method AdvanceSample(cos: Cosine)
      requires Valid()
      modifies this
      ensures Valid() && Snap() == Advance(old(Snap()), consts, cos)
    {
      var phaseInc := PhaseInc(consts, freq);
      ShapeSample(phaseInc, cos);
      phase := phase + phaseInc;
      WrapCycle(phaseInc);
    }

    /** generate's waveform shaping: the pure cosine at or above the threshold frequency,
        otherwise the segment the clocks are on. */
    method ShapeSample(phaseInc: real, cos: Cosine)
      requires Valid() && phaseInc == PhaseInc(consts, freq)
      modifies this
      ensures Snap() == Shaped(old(Snap()), consts, phaseInc, cos)
    {
      if freq >= consts.maxSweepFreq {
        audioOut := cos(PI * sweepPhase);
        phase := sweepPhase;
        sweepPhase := sweepPhase + phaseInc;
      } else {
        var e := SweepEnv(clip, skew, consts, phaseInc);
        audioOut, phase, sweepPhase := SegmentSample(e, phase, sweepPhase, cos);
      }
    }

    /** generate's end-of-cycle test, after the linear clock has advanced. */
    method WrapCycle(phaseInc: real)
      requires ConstsValid(consts) && 0.0 <= clip <= 1.0 && freq >= 0.0
      requires phaseInc == PhaseInc(consts, freq)
      modifies this
      ensures Snap() == Wrap(old(Snap()), consts, phaseInc)
    {
      if sweepPhase >= 2.0 && phase >= 2.0 {
        if hardsyncPhase != 0.0 {
          sweepPhase := 0.0;
          phase := 0.0;
          hardsyncPhase := 0.0;
          hardsyncInc := 0.0;
        } else {
          phase := phase - 2.0;
          if phase > phaseInc {
            phase := phaseInc * 0.5;
          }
          if freq < consts.maxSweepFreq {
            var e := SweepEnv(clip, skew, consts, phaseInc);
            sweepPhase := DownRestart(e, phase);
          } else {
            sweepPhase := phase;
          }
        }
        syncOut := 1.0;
      } else {
        syncOut := 0.0;
      }
    }

    /** set_init_phase: the request is brought onto [0, 2], then both clocks are seeded at
        it. */
    method SetInitPhase(phaseIn: real)
      requires Valid()
      modifies this
      ensures Valid() && Snap() == Seeded(old(Snap()), consts, phaseIn)
    {
      var e := SeedEnv(clip, skew, freq, consts);
      var target;
      if phaseIn < 0.0 {
        target := 1.25;
      } else if phaseIn > 2.0 {
        target := FMod(phaseIn, 2.0);
      } else {
        target := phaseIn;
      }
      phase, sweepPhase := SeedSample(e, target);
    }
  }
}
