/** The newer SuperCollider unit generator (supercollider/plugins/Squine/Squine.cpp).

    Unlike the Rust and Java revisions it has no through-zero logic and no sync output; its
    frequency, clip and skew come from three `input_param`s, each of which either reads a
    host buffer sample by sample or ramps linearly toward the host's one value per block;
    and a sync request is an index into the block, found by scanning the sync input. The
    host's buffers are sequences (inputs) and an array (the sound output); the sample rate,
    the rates of the inputs and the random number the constructor may draw are parameters. */
module ScSquine {
  import opened Libm
  import opened Shape
  import Shared = Squine

  // ---------------------------------------------------------------------------------------
  //  input_param
  // ---------------------------------------------------------------------------------------

  /** Where an input_param takes its samples from: a host buffer read sample by sample
      (audio rate), or none, the value then ramping toward the host's one value per block. */
  datatype Host = ControlRate | AudioRate(sig: seq<real>)

  datatype Param = Param(host: Host, target: real, value: real, change: real)

  /** A member input_param as its initialisers leave it: no host buffer, all zero. */
  const Fresh: Param := Param(ControlRate, 0.0, 0.0, 0.0)

  /** The ramp is heading for its target: it is stopped, or one more change leaves the value
      strictly short of the target, on the side it starts from. */
  predicate Heading(p: Param)
  {
    || p.change == 0.0
    || (p.change > 0.0 && p.value + p.change < p.target)
    || (p.change < 0.0 && p.value + p.change > p.target)
  }

  /** x lies between a and b, both included. */
  predicate Within(a: real, x: real, b: real)
  {
    Min(a, b) <= x <= Max(a, b)
  }

  /** init: at audio rate the host buffer is kept; at control rate there is none and the
      value is the host's current one. */
  function Initialised(p: Param, hostSig: seq<real>, isAudioRate: bool): (r: Param)
    requires isAudioRate || |hostSig| >= 1
    ensures r.host.AudioRate? <==> isAudioRate
    ensures r.target == p.target && r.change == p.change
    ensures p.change == 0.0 ==> Heading(r)
  {
    if isAudioRate then p.(host := AudioRate(hostSig)) else p.(host := ControlRate, value := hostSig[0])
  }

  /** check_finished: a ramp within one change of its target lands on it and stops. What
      remains is a stopped ramp or one more than a change away from its target. */
  function Checked(p: Param): (r: Param)
    ensures r.host == p.host && r.target == p.target
    ensures (r.value == p.value && r.change == p.change) || (r.value == p.target && r.change == 0.0)
    ensures r.change == 0.0 || Abs(r.value - r.target) > Abs(r.change)
    ensures r != p <==> p.change != 0.0 && Abs(p.value - p.target) <= Abs(p.change)
    ensures Heading(p) ==> r == p
  {
    if p.change != 0.0 && Abs(p.value - p.target) <= Abs(p.change) then p.(value := p.target, change := 0.0)
    else p
  }

  /** set_target: aim at val, covering the proportion changerate of the distance per sample.
      With a rate in (0, 1] the ramp heads for its new target; at rate 1 it is there at once. */
  function Targeted(p: Param, val: real, changerate: real): (r: Param)
    ensures r.host == p.host && r.target == val
    ensures 0.0 < changerate <= 1.0 ==> Heading(r)
    ensures changerate == 1.0 ==> r.value == val && r.change == 0.0
  {
    var q := Aimed(p, val, changerate);
    TargetedHeads(q, p.value, changerate);
    Checked(q)
  }

  /** The first two assignments of set_target, before its check_finished. */
  function Aimed(p: Param, val: real, changerate: real): (q: Param)
    ensures q.host == p.host && q.value == p.value && q.target == val
    ensures q.change == (val - p.value) * changerate
  {
    p.(target := val, change := (val - p.value) * changerate)
  }

  /** A ramp aimed at a proportion rate in (0, 1] of its distance heads for its target. */
  lemma TargetedHeads(q: Param, v: real, rate: real)
    requires q.value == v && q.change == (q.target - v) * rate
    ensures 0.0 < rate <= 1.0 ==> Heading(Checked(q))
    ensures rate == 1.0 ==> Checked(q).value == q.target && Checked(q).change == 0.0
  {
    if 0.0 < rate <= 1.0 {
      Portion(q.target - v, rate);
    }
  }

  /** A proportion rate in (0, 1] of a distance d lies between 0 and d, strictly inside
      when rate < 1. */
  lemma Portion(d: real, rate: real)
    requires 0.0 < rate <= 1.0
    ensures d > 0.0 ==> 0.0 < d * rate <= d && (rate < 1.0 ==> d * rate < d)
    ensures d < 0.0 ==> d <= d * rate < 0.0 && (rate < 1.0 ==> d < d * rate)
    ensures d == 0.0 ==> d * rate == 0.0
  {
    if d > 0.0 {
      MulStrict(d, 0.0, rate);
      MulStrict(d, rate, 1.0);
      assert d * 1.0 == d && d * 0.0 == 0.0;
    } else if d < 0.0 {
      MulStrict(-d, 0.0, rate);
      MulStrict(-d, rate, 1.0);
      assert (-d) * 1.0 == -d && (-d) * 0.0 == 0.0 && (-d) * rate == -(d * rate);
    }
  }

  /** reinit: at audio rate, this block's host buffer; at control rate, a ramp over the block
      toward the host's new value. */
  function Reinitialised(p: Param, hostSig: seq<real>, sampleCount: int): (r: Param)
    requires sampleCount >= 1
    requires p.host.ControlRate? ==> |hostSig| >= 1
    ensures r.host.AudioRate? <==> p.host.AudioRate?
    ensures p.host.AudioRate? ==> r.host.sig == hostSig
    ensures p.host.ControlRate? ==> r.target == hostSig[0] && Heading(r)
  {
    if p.host.AudioRate? then p.(host := AudioRate(hostSig))
    else Targeted(p, hostSig[0], 1.0 / (sampleCount as real))
  }

  /** get_next(n): at audio rate the host's sample n; at control rate one more change toward
      the target, never past it, and no movement once it is there. */
  function ParamNext(p: Param, n: int): (r: Param)
    requires p.host.AudioRate? ==> 0 <= n < |p.host.sig|
    ensures r.host == p.host
    ensures p.host.AudioRate? ==> r.value == p.host.sig[n] && r.change == p.change && r.target == p.target
    ensures p.host.ControlRate? ==> r.target == p.target
    ensures p.host.ControlRate? && Heading(p) ==> Heading(r) && Within(p.value, r.value, p.target)
    ensures p.host.ControlRate? && p.change == 0.0 ==> r == p
  {
    match p.host
    case AudioRate(sig) => p.(value := sig[n])
    case ControlRate =>
      var q := p.(value := p.value + p.change);
      NextHeads(p);
      Checked(q)
  }

  lemma NextHeads(p: Param)
    ensures var r := Checked(p.(value := p.value + p.change));
            Heading(p) ==> Heading(r) && Within(p.value, r.value, p.target)
  {
  }

  /** Control-rate samples after a reinit, k of them. */
  function Samples(p: Param, k: nat): (r: Param)
    requires p.host.ControlRate?
    ensures r.host == p.host && r.target == p.target
    decreases k
  {
    if k == 0 then p else Samples(ParamNext(p, 0), k - 1)
  }

  /** A control-rate input reinitialised for a block of sampleCount samples has reached the
      host's new value after sampleCount - 1 samples, so on the block's last sample at the
      latest, and has stopped. */
  lemma {:induction false} ControlRateArrives(p: Param, hostSig: seq<real>, sampleCount: int)
    requires sampleCount >= 1 && p.host.ControlRate? && |hostSig| >= 1
    ensures var r := Samples(Reinitialised(p, hostSig, sampleCount), sampleCount - 1);
            r.value == hostSig[0] && r.change == 0.0
  {
    var r := Reinitialised(p, hostSig, sampleCount);
    TargetedRamp(p, hostSig[0], sampleCount);
    if r.change == 0.0 {
      StoppedStays(r, sampleCount - 1);
    } else {
      RampArrives(r, sampleCount);
    }
  }

  /** The ramp set_target aims at v over j samples: already there, or j changes short of it. */
  lemma TargetedRamp(p: Param, v: real, j: int)
    requires j >= 1
    ensures var r := Targeted(p, v, 1.0 / (j as real));
            && r.host == p.host && r.target == v
            && (r.change == 0.0 ==> r.value == v)
            && (r.change != 0.0 ==> j >= 2 && r.target - r.value == (j as real) * r.change)
  {
    var n := j as real;
    var rate := 1.0 / n;
    var q := Aimed(p, v, rate);
    assert q.target - q.value == n * q.change by { Rescale(v - p.value, n); }
    CheckedRamp(q, j);
  }

  /** A ramp j changes short of its target, j >= 1, is checked into one already there, or
      left alone when j >= 2. */
  lemma CheckedRamp(q: Param, j: int)
    requires j >= 1 && q.target - q.value == (j as real) * q.change
    ensures var r := Checked(q);
            && (r.change == 0.0 ==> r.value == q.target)
            && (r.change != 0.0 ==> j >= 2 && r == q)
  {
    if q.change == 0.0 {
    } else if j == 1 {
    } else {
      MoreThanOneChange(q.change, j);
    }
  }

  lemma Rescale(d: real, n: real)
    requires n > 0.0
    ensures n * (d * (1.0 / n)) == d
    ensures d * (1.0 / n) == 0.0 ==> d == 0.0
  {
  }

  /** j changes, j >= 2, are more than one change. */
  lemma MoreThanOneChange(c: real, j: int)
    requires c != 0.0 && j >= 2
    ensures Abs((j as real) * c) > Abs(c)
  {
    if c > 0.0 {
      MulStrict(c, 2.0, j as real);
    } else {
      MulStrict(-c, 2.0, j as real);
    }
  }

  /** A ramp that is j changes short of its target, j >= 2, arrives after j - 1 control-rate
      samples. */
  lemma {:induction false} RampArrives(q: Param, j: int)
    requires q.host.ControlRate? && j >= 2 && q.change != 0.0
    requires q.target - q.value == (j as real) * q.change
    ensures Samples(q, j - 1).value == q.target && Samples(q, j - 1).change == 0.0
    decreases j
  {
    if j == 2 {
      RampLands(q);
      assert Samples(q, 1) == ParamNext(q, 0);
    } else {
      RampStepsOn(q, j);
      RampArrives(q.(value := q.value + q.change), j - 1);
    }
  }

  /** A ramp two changes short of its target lands on it with one change. */
  lemma RampLands(q: Param)
    requires q.host.ControlRate? && q.change != 0.0
    requires q.target - q.value == 2.0 * q.change
    ensures ParamNext(q, 0) == q.(value := q.target, change := 0.0)
  {
    assert q.target - (q.value + q.change) == q.change;
  }

  /** A ramp j changes short of its target, j >= 3, takes a plain step and is j - 1 changes
      short. */
  lemma RampStepsOn(q: Param, j: int)
    requires q.host.ControlRate? && j >= 3 && q.change != 0.0
    requires q.target - q.value == (j as real) * q.change
    ensures ParamNext(q, 0) == q.(value := q.value + q.change)
    ensures q.target - (q.value + q.change) == ((j - 1) as real) * q.change
  {
    assert q.target - (q.value + q.change) == ((j - 1) as real) * q.change;
    MoreThanOneChange(q.change, j - 1);
  }

  /** A stopped control-rate input stays where it is. */
  lemma {:induction false} StoppedStays(p: Param, k: nat)
    requires p.host.ControlRate? && p.change == 0.0
    ensures Samples(p, k) == p
  {
    if k > 0 {
      StoppedStays(ParamNext(p, 0), k - 1);
    }
  }

  // ---------------------------------------------------------------------------------------
  //  find_sync and the GET_ macros
  // ---------------------------------------------------------------------------------------

  /** The first index in [first, last) at which the sync signal reaches 1, or -1. */
  function FirstSync(sig: seq<real>, first: int, last: int): (r: int)
    requires 0 <= first && last <= |sig|
    ensures r == -1 || first <= r < last
    ensures r == -1 <==> forall j :: first <= j < last ==> sig[j] < 1.0
    ensures r != -1 ==> sig[r] >= 1.0 && forall j :: first <= j < r ==> sig[j] < 1.0
    decreases last - first
  {
    if first >= last then -1
    else if sig[first] >= 1.0 then first
    else FirstSync(sig, first + 1, last)
  }

  /** find_sync: the scan for the first sync trigger in [first, last). */
  method FindSync(sig: seq<real>, first: int, last: int) returns (r: int)
    requires 0 <= first && last <= |sig|
    ensures r == FirstSync(sig, first, last)
    ensures r == -1 || (first <= r < last && sig[r] >= 1.0)
  {
    var i := first;
    while i < last
      invariant first <= i && (i <= last || i == first)
      invariant forall j :: first <= j < i ==> sig[j] < 1.0
    {
      if sig[i] >= 1.0 {
        return i;
      }
      i := i + 1;
    }
    return -1;
  }

  /** GET_FREQ: no negative frequency. */
  function GetFreq(x: real): (r: real)
    ensures r >= 0.0 && r >= x && (r == x || r == 0.0)
  {
    Max(x, 0.0)
  }

  // GET_CLIP and GET_SKEW compute what the Rust setters store: Shared.ClipOf and Shared.SkewOf.

  // ---------------------------------------------------------------------------------------
  //  Constants set up by the constructor
  // ---------------------------------------------------------------------------------------

  /** The minimum sweep the constructor settles on for the argument arg: arg itself in
      [4, 100], 100 above, and below 4 the random 10 * drand + 5 kept in [5, 15]. */
  function MinSweepOf(arg: real, drand: real): (m: real)
    ensures 4.0 <= m <= 100.0
    ensures 4.0 <= arg <= 100.0 ==> m == arg
    ensures arg > 100.0 ==> m == 100.0
    ensures arg < 4.0 ==> 5.0 <= m <= 15.0
    ensures arg < 4.0 && 0.0 <= drand <= 1.0 ==> m == 10.0 * drand + 5.0
  {
    if arg < 4.0 || arg > 100.0 then
      if arg < 4.0 then Clamp(10.0 * drand + 5.0, 5.0, 15.0) else 100.0
    else arg
  }

  /** The constructor's constants, all derived from the minimum sweep it settles on. */
  function ScConsts(arg: real, drand: real, sampleRate: real, ln: Logarithm): (k: Shared.Consts)
    requires sampleRate > 0.0
    ensures Shared.ConstsValid(k)
    ensures k.minSweep == MinSweepOf(arg, drand)
    ensures Shared.DerivedFor(k, sampleRate, ln)
  {
    var k := Shared.ConstsFrom(MinSweepOf(arg, drand), sampleRate, ln);
    assert k.minSweep == MinSweepOf(arg, drand);
    k
  }

  /** The constructor's constants keep the warped clock in [0, 2]. */
  lemma ScConstsKeepCycle(arg: real, drand: real, sampleRate: real, ln: Logarithm)
    requires sampleRate > 0.0
    ensures Shared.CycleConsts(ScConsts(arg, drand, sampleRate, ln))
  {
    var k := ScConsts(arg, drand, sampleRate, ln);
    Shared.DerivedCycleConsts(k, sampleRate, k.minSweep, ln(k.minSweep));
  }

  /** The constructor's start phase: outside [0, 2] it becomes the upward zero crossing 1.25.
      init_phase's own mapping of the request then leaves it unchanged. */
  function StartPhaseOf(x: real): (t: real)
    ensures 0.0 <= t <= 2.0 && SeedTarget(t) == t
    ensures 0.0 <= x <= 2.0 ==> t == x
    ensures !(0.0 <= x <= 2.0) ==> t == 1.25
  {
    if x < 0.0 || x > 2.0 then 1.25 else x
  }

  // ---------------------------------------------------------------------------------------
  //  One sample
  // ---------------------------------------------------------------------------------------

  /** The unit's clocks and its hard sync ramp. */
  datatype Phases = Phases(phase: real, sweepPhase: real, hardsyncPhase: real, hardsyncInc: real)

  predicate PhasesValid(u: Phases)
  {
    u.hardsyncPhase >= 0.0 && u.hardsyncInc >= 0.0
  }

  /** init_phase(phase_in, freq, clip, skew): both clocks set to the requested point of the
      symbolic phase (see Shape.SeedClocks) at the given frequency, clip and skew. */
  function Seeded(u: Phases, k: Shared.Consts, phaseIn: real, freq: real, clip: real, skew: real): (r: Phases)
    requires Shared.ConstsValid(k) && freq >= 0.0 && 0.0 <= clip <= 1.0
    ensures r == u.(phase := r.phase, sweepPhase := r.sweepPhase)
    ensures var t := SeedTarget(phaseIn);
            && (t < 0.5 ==> r.sweepPhase == 2.0 * t)
            && (0.5 <= t < 1.0 ==> r.sweepPhase == 1.0)
            && (1.0 <= t < 1.5 ==> r.sweepPhase == 2.0 * t - 1.0)
            && (1.5 <= t ==> r.sweepPhase == 2.0)
  {
    var c := SeedClocks(Shared.SweepEnv(clip, skew, k, Shared.PhaseInc(k, freq)), SeedTarget(phaseIn));
    u.(phase := c.phase, sweepPhase := c.warp)
  }

  /** hardsync_init(freq, sweep_phase): start the ramp unless one is active, the wave is on
      its last flat part (then the cycle ends now) or freq is above the sync frequency. */
  function HardsyncStart(u: Phases, k: Shared.Consts, freq: real): (r: Phases)
    ensures r.sweepPhase == u.sweepPhase
    ensures u.hardsyncPhase != 0.0 ==> r == u
    ensures u.hardsyncPhase == 0.0 && u.sweepPhase == 2.0 ==> r == u.(phase := 2.0)
    ensures u.hardsyncPhase == 0.0 && u.sweepPhase != 2.0 && freq > k.maxSyncFreq ==> r == u
    ensures u.hardsyncPhase == 0.0 && u.sweepPhase != 2.0 && freq <= k.maxSyncFreq ==>
      r.phase == u.phase && r.hardsyncInc == k.syncPhaseInc && r.hardsyncPhase * 2.0 == k.syncPhaseInc
  {
    if u.hardsyncPhase != 0.0 then u
    else if u.sweepPhase == 2.0 then u.(phase := 2.0)
    else if freq > k.maxSyncFreq then u
    else u.(hardsyncInc := k.syncPhaseInc, hardsyncPhase := k.syncPhaseInc * 0.5)
  }

  /** The clocks and the sample's frequency after the hard sync logic. */
  datatype Boost = Boost(u: Phases, freq: real)

  /** The head of the sample loop: serve a sync request at this sample, then, while a hard
      sync is active, move the frequency toward the sync frequency by the raised-cosine
      weight of the ramp's phase, which advances and is pinned at pi. */
  function Prepared(u: Phases, k: Shared.Consts, fire: bool, freq: real, cos: Cosine): (r: Boost)
    requires Shared.ConstsValid(k) && PhasesValid(u) && freq >= 0.0
    ensures PhasesValid(r.u) && r.u.hardsyncPhase <= PI && r.freq >= 0.0
    ensures r.u.sweepPhase == u.sweepPhase
    ensures Within(freq, r.freq, k.maxSyncFreq)
    ensures !fire && u.hardsyncPhase == 0.0 ==> r == Boost(u, freq)
    ensures var v := if fire then HardsyncStart(u, k, freq) else u;
            v.hardsyncPhase != 0.0 ==>
              r.u.hardsyncPhase == Min(v.hardsyncPhase + v.hardsyncInc, PI) &&
              r.u.hardsyncInc == (if v.hardsyncPhase + v.hardsyncInc > PI then 0.0 else v.hardsyncInc)
  {
    var v := if fire then HardsyncStart(u, k, freq) else u;
    if v.hardsyncPhase != 0.0 then
      var syncsweep := 0.5 * (1.0 - cos(v.hardsyncPhase));
      var f := Shared.Ramp(freq, k.maxSyncFreq, syncsweep);
      var hp := v.hardsyncPhase + v.hardsyncInc;
      if hp > PI then Boost(v.(hardsyncPhase := PI, hardsyncInc := 0.0), f)
      else Boost(v.(hardsyncPhase := hp), f)
    else Boost(v, freq)
  }

  /** The waveform shaping at the sample's frequency: the pure cosine of the warp at or above
      the threshold frequency, otherwise the segment the clocks are on. */
  function Shaped(u: Phases, k: Shared.Consts, freq: real, clip: real, skew: real, cos: Cosine): (c: Clocks)
    requires Shared.ConstsValid(k) && freq >= 0.0 && 0.0 <= clip <= 1.0
    ensures -1.0 <= c.audio <= 1.0
    ensures freq >= k.maxSweepFreq ==>
      c == Clocks(cos(PI * u.sweepPhase), u.sweepPhase, u.sweepPhase + Shared.PhaseInc(k, freq))
  {
    var phaseInc := Shared.PhaseInc(k, freq);
    if freq >= k.maxSweepFreq then Clocks(cos(PI * u.sweepPhase), u.sweepPhase, u.sweepPhase + phaseInc)
    else Segments(Shared.SweepEnv(clip, skew, k, phaseInc), u.phase, u.sweepPhase, cos)
  }

  /** The clocks after the wraparound test, and whether the sync input must be scanned again. */
  datatype Wrapped = Wrapped(u: Phases, rescan: bool)

  /** The wraparound after the linear clock has advanced: with both clocks at or past 2 a hard
      sync in progress ends with all four fields zero and a new scan for a sync trigger;
      otherwise the linear clock keeps its fraction past 2 (half an increment when that
      exceeds one increment) and the warp restarts from it. */
  function Wrap(u: Phases, k: Shared.Consts, freq: real, clip: real, skew: real): (r: Wrapped)
    requires Shared.ConstsValid(k) && PhasesValid(u) && freq >= 0.0 && 0.0 <= clip <= 1.0
    ensures PhasesValid(r.u)
    ensures r.rescan <==> u.sweepPhase >= 2.0 && u.phase >= 2.0 && u.hardsyncPhase != 0.0
    ensures r.rescan ==> r.u == Phases(0.0, 0.0, 0.0, 0.0)
    ensures !(u.sweepPhase >= 2.0 && u.phase >= 2.0) ==> r.u == u
    ensures u.sweepPhase >= 2.0 && u.phase >= 2.0 && u.hardsyncPhase == 0.0 ==>
      var phaseInc := Shared.PhaseInc(k, freq);
      && r.u.hardsyncPhase == 0.0 && r.u.hardsyncInc == u.hardsyncInc
      && 0.0 <= r.u.phase <= phaseInc
      && (u.phase - 2.0 <= phaseInc ==> r.u.phase == u.phase - 2.0)
      && (u.phase - 2.0 > phaseInc ==> r.u.phase == phaseInc * 0.5)
      && (freq >= k.maxSweepFreq ==> r.u.sweepPhase == r.u.phase)
      && (freq < k.maxSweepFreq ==> 0.0 <= r.u.sweepPhase <= k.maxSweepInc)
      && (freq < k.maxSweepFreq ==>
            r.u.sweepPhase == DownRestart(Shared.SweepEnv(clip, skew, k, phaseInc), r.u.phase))
  {
    var phaseInc := Shared.PhaseInc(k, freq);
    if u.sweepPhase >= 2.0 && u.phase >= 2.0 then
      if u.hardsyncPhase != 0.0 then Wrapped(Phases(0.0, 0.0, 0.0, 0.0), true)
      else
        var ph := u.phase - 2.0;
        var ph := if ph > phaseInc then phaseInc * 0.5 else ph;
        if freq < k.maxSweepFreq then
          Wrapped(u.(phase := ph, sweepPhase := DownRestart(Shared.SweepEnv(clip, skew, k, phaseInc), ph)), false)
        else Wrapped(u.(phase := ph, sweepPhase := ph), false)
    else Wrapped(u, false)
  }

  /** The outcome of one sample: the clocks, the output and whether to scan again. */
  datatype Sampled = Sampled(u: Phases, audio: real, rescan: bool)

  /** One pass of the sample loop on the clocks u, given this sample's frequency, clip and
      skew and whether a sync is requested here. A rescan happens only when a hard sync
      was active or just started. */
  function Sample(u: Phases, k: Shared.Consts, fire: bool, freq: real, clip: real, skew: real, cos: Cosine)
    : (r: Sampled)
    requires Shared.ConstsValid(k) && PhasesValid(u) && freq >= 0.0 && 0.0 <= clip <= 1.0
    ensures PhasesValid(r.u) && r.u.hardsyncPhase <= PI
    ensures -1.0 <= r.audio <= 1.0
    ensures !fire && u.hardsyncPhase == 0.0 ==> !r.rescan && r.u.hardsyncPhase == 0.0
  {
    var b := Prepared(u, k, fire, freq, cos);
    var c := Shaped(b.u, k, b.freq, clip, skew, cos);
    var w := Wrap(b.u.(phase := c.phase + Shared.PhaseInc(k, b.freq), sweepPhase := c.warp), k, b.freq, clip, skew);
    Sampled(w.u, c.audio, w.rescan)
  }

  /** On the pure-cosine path, absent a wraparound, the linear clock ends equal to the warp,
      and the output is the cosine of the warp the sample started from. */
  lemma FastPathLocksClocks(u: Phases, k: Shared.Consts, fire: bool, freq: real, clip: real, skew: real, cos: Cosine)
    requires Shared.ConstsValid(k) && PhasesValid(u) && freq >= 0.0 && 0.0 <= clip <= 1.0
    requires Prepared(u, k, fire, freq, cos).freq >= k.maxSweepFreq
    ensures var r := Sample(u, k, fire, freq, clip, skew, cos);
            && r.u.phase == r.u.sweepPhase
            && r.audio == cos(PI * Prepared(u, k, fire, freq, cos).u.sweepPhase)
  {
    var b := Prepared(u, k, fire, freq, cos);
    var c := Shaped(b.u, k, b.freq, clip, skew, cos);
    assert c.phase + Shared.PhaseInc(k, b.freq) == c.warp;
  }

  /** One sample keeps the warped clock in [0, 2] when its frequency is at most the sample
      rate: a hard sync ramps only toward the sync frequency, and a warp past 2 comes with
      a linear clock past 2, which the wraparound catches. */
  lemma SampleKeepsCycle(u: Phases, k: Shared.Consts, fire: bool, freq: real, clip: real, skew: real,
                         cos: Cosine)
    requires Shared.CycleConsts(k) && PhasesValid(u) && freq >= 0.0 && 0.0 <= clip <= 1.0
    requires 0.0 <= u.sweepPhase <= 2.0 && Shared.PhaseInc(k, freq) <= 2.0
    ensures 0.0 <= Sample(u, k, fire, freq, clip, skew, cos).u.sweepPhase <= 2.0
  {
    var b := Prepared(u, k, fire, freq, cos);
    Shared.SyncWithinRate(k);
    Shared.RateBetween(k, freq, b.freq, k.maxSyncFreq);
    if b.freq < k.maxSweepFreq {
      Shared.SweepKeepsCycle(k, b.freq, clip, skew, b.u.phase, b.u.sweepPhase, cos);
    }
  }

  // ---------------------------------------------------------------------------------------
  //  One block
  // ---------------------------------------------------------------------------------------

  /** The unit between samples: its three inputs, whether the sync input is at audio rate,
      and its clocks. */
  datatype UnitState = UnitState(fp: Param, cp: Param, sp: Param, syncAr: bool, u: Phases)

  /** What every block keeps: the ranges of the clocks, and no hard sync unless the sync
      input is at audio rate (only a scan of it can request one). */
  predicate Ready(s: UnitState)
  {
    PhasesValid(s.u) && s.u.hardsyncPhase <= PI && (!s.syncAr ==> s.u.hardsyncPhase == 0.0)
  }

  /** The host gives the input what reinit and get_next read: its one value at control
      rate, n samples at audio rate. */
  predicate Supplies(p: Param, sig: seq<real>, n: int)
  {
    (p.host.ControlRate? ==> |sig| >= 1) && (p.host.AudioRate? ==> |sig| >= n)
  }

  /** An input that reads a host buffer has n samples to read. */
  predicate Feeds(p: Param, n: int)
  {
    p.host.AudioRate? ==> n <= |p.host.sig|
  }

  /** What the sample loop needs at index i of an n-sample block: valid constants, a ready
      unit, inputs that can be read up to n, and a sync input that can be scanned when a
      hard sync may end. */
  predicate Runnable(s: UnitState, k: Shared.Consts, i: int, n: int, sync: int, syncSig: seq<real>)
  {
    && Shared.ConstsValid(k) && Ready(s) && 0 <= i <= n
    && Feeds(s.fp, n) && Feeds(s.cp, n) && Feeds(s.sp, n)
    && (s.syncAr ==> n <= |syncSig|)
    && (!s.syncAr ==> sync == -1)
  }

  /** The unit after one pass of the sample loop, the sync index it goes on with, and the
      sample it wrote. */
  datatype Ticked = Ticked(s: UnitState, sync: int, audio: real)

  /** One pass of next's sample loop at index i of an n-sample block: each input moves on
      by one sample, the sample is computed with a hard sync requested exactly when i is
      the sync index, and a wraparound that ends a hard sync scans the sync input again,
      from i. */
  function TickOf(s: UnitState, k: Shared.Consts, i: int, n: int, sync: int, syncSig: seq<real>, cos: Cosine)
    : (r: Ticked)
    requires Runnable(s, k, i, n, sync, syncSig) && i < n
    ensures Ready(r.s) && r.s.syncAr == s.syncAr
    ensures r.s.fp == ParamNext(s.fp, i) && r.s.cp == ParamNext(s.cp, i) && r.s.sp == ParamNext(s.sp, i)
    ensures -1.0 <= r.audio <= 1.0
    ensures !s.syncAr ==> r.sync == -1
    ensures r.sync == sync || r.sync == -1 || i <= r.sync < n
  {
    var fp := ParamNext(s.fp, i);
    var cp := ParamNext(s.cp, i);
    var sp := ParamNext(s.sp, i);
    var r := Sample(s.u, k, i == sync, GetFreq(fp.value), Shared.ClipOf(cp.value), Shared.SkewOf(sp.value), cos);
    var sync := if r.rescan then FirstSync(syncSig, i, n) else sync;
    Ticked(UnitState(fp, cp, sp, s.syncAr, r.u), sync, r.audio)
  }

  /** The unit, the sync index and the samples written after some passes of the sample
      loop. */
  datatype Progress = Progress(s: UnitState, sync: int, out: seq<real>)

  /** The first i passes of the sample loop of an n-sample block, from the unit s and the
      sync index sync. Every sample written lies in [-1, 1], and every pass keeps the
      design's invariant (InCycle). */
  function Played(s: UnitState, k: Shared.Consts, i: int, n: int, sync: int, syncSig: seq<real>, cos: Cosine)
    : (r: Progress)
    requires Runnable(s, k, 0, n, sync, syncSig) && 0 <= i <= n
    ensures Runnable(r.s, k, i, n, r.sync, syncSig) && r.s.syncAr == s.syncAr
    ensures r.s.fp.host == s.fp.host && r.s.cp.host == s.cp.host && r.s.sp.host == s.sp.host
    ensures |r.out| == i
    ensures forall j :: 0 <= j < i ==> -1.0 <= r.out[j] <= 1.0
    ensures Shared.CycleConsts(k) && InCycle(s, k) ==> InCycle(r.s, k)
    decreases i
  {
    if i == 0 then Progress(s, sync, [])
    else Pass(Played(s, k, i - 1, n, sync, syncSig, cos), k, i - 1, n, syncSig, cos)
  }

  /** The progress p of the sample loop after pass i: its sample is appended, and the pass
      keeps the design's invariant (InCycle). */
  function Pass(p: Progress, k: Shared.Consts, i: int, n: int, syncSig: seq<real>, cos: Cosine): (r: Progress)
    requires Runnable(p.s, k, i, n, p.sync, syncSig) && i < n
    ensures Runnable(r.s, k, i + 1, n, r.sync, syncSig) && r.s.syncAr == p.s.syncAr
    ensures r.s.fp.host == p.s.fp.host && r.s.cp.host == p.s.cp.host && r.s.sp.host == p.s.sp.host
    ensures |r.out| == |p.out| + 1 && r.out[..|p.out|] == p.out && -1.0 <= r.out[|p.out|] <= 1.0
    ensures Shared.CycleConsts(k) && InCycle(p.s, k) ==> InCycle(r.s, k)
  {
    var t := TickOf(p.s, k, i, n, p.sync, syncSig, cos);
    TickKeepsCycle(p.s, k, i, n, p.sync, syncSig, cos);
    Progress(t.s, t.sync, p.out + [t.audio])
  }

  /** next(nSamples): reinit the three inputs for the block, scan the sync input when it is
      at audio rate, and run the sample loop over the whole block. */
  function Block(s: UnitState, k: Shared.Consts, n: int, freqSig: seq<real>, clipSig: seq<real>,
                 skewSig: seq<real>, syncSig: seq<real>, cos: Cosine): (r: Progress)
    requires Shared.ConstsValid(k) && Ready(s) && n >= 1
    requires Supplies(s.fp, freqSig, n) && Supplies(s.cp, clipSig, n) && Supplies(s.sp, skewSig, n)
    requires s.syncAr ==> n <= |syncSig|
    ensures Ready(r.s) && r.s.syncAr == s.syncAr
    ensures r.s.fp.host.AudioRate? <==> s.fp.host.AudioRate?
    ensures r.s.cp.host.AudioRate? <==> s.cp.host.AudioRate?
    ensures r.s.sp.host.AudioRate? <==> s.sp.host.AudioRate?
    ensures |r.out| == n && forall j :: 0 <= j < n ==> -1.0 <= r.out[j] <= 1.0
  {
    var s1 := s.(fp := Reinitialised(s.fp, freqSig, n), cp := Reinitialised(s.cp, clipSig, n),
                 sp := Reinitialised(s.sp, skewSig, n));
    var sync := if s.syncAr then FirstSync(syncSig, 0, n) else -1;
    Played(s1, k, n, n, sync, syncSig, cos)
  }

  /** At control rate get_next does not look at its index. */
  lemma ControlRateIgnoresIndex(p: Param, n: int)
    requires p.host.ControlRate?
    ensures ParamNext(p, n) == ParamNext(p, 0)
  {
  }

  /** One more sample after Samples(p, i), at any index, is Samples(p, i + 1). */
  lemma ControlRateSamples(p: Param, q: Param, i: nat)
    ensures p.host.ControlRate? && q == Samples(p, i) ==> ParamNext(q, i) == Samples(p, i + 1)
  {
    if p.host.ControlRate? && q == Samples(p, i) {
      ControlRateIgnoresIndex(q, i);
      SamplesSplit(p, i, 1);
    }
  }

  /** A control-rate input p0 has been moved on by i samples of get_next to q. */
  predicate Moved(p0: Param, q: Param, i: nat)
  {
    p0.host.ControlRate? ==> q == Samples(p0, i)
  }

  /** A control-rate input reinitialised for n samples has stopped at the host's value after
      all n of them. */
  lemma BlockSettles(p: Param, hostSig: seq<real>, n: int)
    requires n >= 1 && p.host.ControlRate? && |hostSig| >= 1
    ensures var r := Samples(Reinitialised(p, hostSig, n), n);
            r.value == hostSig[0] && r.change == 0.0
  {
    var q := Reinitialised(p, hostSig, n);
    ControlRateArrives(p, hostSig, n);
    SamplesSplit(q, n - 1, 1);
    StoppedStays(Samples(q, n - 1), 1);
  }

  /** Samples in two stretches are samples in one. */
  lemma {:induction false} SamplesSplit(p: Param, a: nat, b: nat)
    requires p.host.ControlRate?
    ensures Samples(p, a + b) == Samples(Samples(p, a), b)
    decreases a
  {
    if a > 0 {
      SamplesSplit(ParamNext(p, 0), a - 1, b);
    }
  }

  /** Without a sync input at audio rate no hard sync ever starts, so every block runs
      with the hard sync ramp at rest. */
  lemma NoSyncInputNoHardsync(s: UnitState, k: Shared.Consts, n: int, freqSig: seq<real>, clipSig: seq<real>,
                              skewSig: seq<real>, syncSig: seq<real>, cos: Cosine)
    requires Shared.ConstsValid(k) && Ready(s) && n >= 1 && !s.syncAr
    requires Supplies(s.fp, freqSig, n) && Supplies(s.cp, clipSig, n) && Supplies(s.sp, skewSig, n)
    ensures Block(s, k, n, freqSig, clipSig, skewSig, syncSig, cos).s.u.hardsyncPhase == 0.0
  {
  }

  /** The frequency input x, as GetFreq reads it, is at most the sample rate. */
  predicate InRate(k: Shared.Consts, x: real)
    requires k.maxphaseBySr > 0.0
  {
    Shared.PhaseInc(k, GetFreq(x)) <= 2.0
  }

  /** Every frequency the input can yield is at most the sample rate: at audio rate each
      sample of the host buffer, at control rate the ramp's value and its target, with the
      ramp heading for the target. */
  predicate FreqInRate(p: Param, k: Shared.Consts)
    requires k.maxphaseBySr > 0.0
  {
    match p.host
    case ControlRate => Heading(p) && InRate(k, p.value) && InRate(k, p.target)
    case AudioRate(sig) => forall j :: 0 <= j < |sig| ==> InRate(k, sig[j])
  }

  /** The design's invariant between two samples: the warped clock lies in [0, 2], and the
      frequency input stays at most the sample rate. */
  predicate InCycle(s: UnitState, k: Shared.Consts)
    requires k.maxphaseBySr > 0.0
  {
    0.0 <= s.u.sweepPhase <= 2.0 && FreqInRate(s.fp, k)
  }

  /** A value between two frequencies of at most the sample rate reads as one too. */
  lemma InRateBetween(k: Shared.Consts, a: real, x: real, b: real)
    requires k.maxphaseBySr > 0.0 && Within(a, x, b) && InRate(k, a) && InRate(k, b)
    ensures InRate(k, x)
  {
    Shared.RateBetween(k, GetFreq(a), GetFreq(x), GetFreq(b));
  }

  /** get_next keeps the frequency input at most the sample rate, and so is the value it
      yields. */
  lemma NextInRate(p: Param, k: Shared.Consts, i: int)
    requires k.maxphaseBySr > 0.0 && FreqInRate(p, k)
    requires p.host.AudioRate? ==> 0 <= i < |p.host.sig|
    ensures FreqInRate(ParamNext(p, i), k) && InRate(k, ParamNext(p, i).value)
  {
    if p.host.ControlRate? {
      InRateBetween(k, p.value, ParamNext(p, i).value, p.target);
    }
  }

  /** reinit keeps the frequency input at most the sample rate when the host's values are:
      the ramp heads from the value it had toward the host's new one. */
  lemma ReinitInRate(p: Param, k: Shared.Consts, hostSig: seq<real>, n: int)
    requires k.maxphaseBySr > 0.0 && n >= 1
    requires p.host.ControlRate? ==> |hostSig| >= 1 && InRate(k, p.value)
    requires forall j :: 0 <= j < |hostSig| ==> InRate(k, hostSig[j])
    ensures FreqInRate(Reinitialised(p, hostSig, n), k)
  {
  }

  /** One pass of the sample loop keeps the design's invariant. */
  lemma TickKeepsCycle(s: UnitState, k: Shared.Consts, i: int, n: int, sync: int, syncSig: seq<real>,
                       cos: Cosine)
    requires Runnable(s, k, i, n, sync, syncSig) && i < n
    ensures Shared.CycleConsts(k) && InCycle(s, k) ==> InCycle(TickOf(s, k, i, n, sync, syncSig, cos).s, k)
  {
    if Shared.CycleConsts(k) && InCycle(s, k) {
      NextInRate(s.fp, k, i);
      SampleKeepsCycle(s.u, k, i == sync, GetFreq(ParamNext(s.fp, i).value), Shared.ClipOf(ParamNext(s.cp, i).value),
                       Shared.SkewOf(ParamNext(s.sp, i).value), cos);
    }
  }

  /** next keeps the design's invariant from block to block: with the warped clock in
      [0, 2], a frequency ramp starting at most the sample rate and host frequencies at most
      the sample rate, the warped clock ends the block in [0, 2] and the frequency input is
      still at most the sample rate. */
  lemma BlockKeepsCycle(s: UnitState, k: Shared.Consts, n: int, freqSig: seq<real>, clipSig: seq<real>,
                        skewSig: seq<real>, syncSig: seq<real>, cos: Cosine)
    requires Shared.CycleConsts(k) && Ready(s) && n >= 1
    requires Supplies(s.fp, freqSig, n) && Supplies(s.cp, clipSig, n) && Supplies(s.sp, skewSig, n)
    requires s.syncAr ==> n <= |syncSig|
    requires 0.0 <= s.u.sweepPhase <= 2.0
    requires s.fp.host.ControlRate? ==> InRate(k, s.fp.value)
    requires forall j :: 0 <= j < |freqSig| ==> InRate(k, freqSig[j])
    ensures InCycle(Block(s, k, n, freqSig, clipSig, skewSig, syncSig, cos).s, k)
  {
    var s1 := s.(fp := Reinitialised(s.fp, freqSig, n), cp := Reinitialised(s.cp, clipSig, n),
                 sp := Reinitialised(s.sp, skewSig, n));
    ReinitInRate(s.fp, k, freqSig, n);
  }

  // ---------------------------------------------------------------------------------------
  //  The classes
  // ---------------------------------------------------------------------------------------

  /** input_param: where the host pointer is null the input is at control rate. */
  class InputParam {
    var host: Host
    var target: real
    var value: real
    var change: real

    ghost function Snap(): Param
      reads this
    {
      Param(host, target, value, change)
    }

    constructor ()
      ensures Snap() == Fresh
    {
      host, target, value, change := ControlRate, 0.0, 0.0, 0.0;
    }

    method Init(hostSigIn: seq<real>, isAudioRate: bool)
      requires isAudioRate || |hostSigIn| >= 1
      modifies this
      ensures Snap() == Initialised(old(Snap()), hostSigIn, isAudioRate)
    {
      if isAudioRate {
        host := AudioRate(hostSigIn);
      } else {
        host := ControlRate;
        value := hostSigIn[0];
      }
    }

    method Reinit(hostSigIn: seq<real>, sampleCount: int)
      requires sampleCount >= 1 && (host.ControlRate? ==> |hostSigIn| >= 1)
      modifies this
      ensures Snap() == Reinitialised(old(Snap()), hostSigIn, sampleCount)
    {
      if host.AudioRate? {
        host := AudioRate(hostSigIn);
      } else {
        SetTarget(hostSigIn[0], 1.0 / (sampleCount as real));
      }
    }

    method CheckFinished()
      modifies this
      ensures Snap() == Checked(old(Snap()))
    {
      if change != 0.0 && Abs(value - target) <= Abs(change) {
        value := target;
        change := 0.0;
      }
    }

    method SetTarget(val: real, changerate: real)
      modifies this
      ensures Snap() == Targeted(old(Snap()), val, changerate)
    {
      ghost var p := Snap();
      target := val;
      change := (target - value) * changerate;
      ghost var q := Snap();
      assert q == Aimed(p, val, changerate);
      CheckFinished();
      assert Snap() == Checked(q);
    }

    method GetNext(n: int) returns (r: real)
      requires host.AudioRate? ==> 0 <= n < |host.sig|
      modifies this
      ensures Snap() == ParamNext(old(Snap()), n) && r == value
    {
      if host.AudioRate? {
        value := host.sig[n];
        return value;
      }
      value := value + change;
      CheckFinished();
      return value;
    }
  }

  /** The unit generator. Its three member input_params are separate objects here. */
  class Squine {
    const freqParam: InputParam
    const clipParam: InputParam
    const skewParam: InputParam
    const syncAr: bool

    var phase: real
    var sweepPhase: real
    var hardsyncPhase: real
    var hardsyncInc: real

    const consts: Shared.Consts

    /** The constructor, on the host buffers of the first block (one sample), the rates of
        the inputs, the first values of the minimum sweep and start phase inputs, the random
        number drand() would return, and the values the clock fields hold before anything
        is written to them (init_phase is skipped for a start phase of 0). It ends by
        computing the first sample, as next(1). */
    constructor (sampleRate: real, freqSig: seq<real>, clipSig: seq<real>, skewSig: seq<real>,
                 syncSig: seq<real>, freqAr: bool, clipAr: bool, skewAr: bool, syncArIn: bool,
                 minSweepArg: real, startPhaseArg: real, drand: real, residualPhase: real,
                 residualSweep: real, soundOut: array<real>, ln: Logarithm, cos: Cosine)
      requires sampleRate > 0.0 && soundOut.Length >= 1
      requires |freqSig| >= 1 && |clipSig| >= 1 && |skewSig| >= 1 && |syncSig| >= 1
      modifies soundOut
      ensures Valid()
      ensures consts == ScConsts(minSweepArg, drand, sampleRate, ln)
      ensures var s := Started(consts, freqSig, clipSig, skewSig, freqAr, clipAr, skewAr, syncArIn,
                               startPhaseArg, residualPhase, residualSweep);
              var r := Block(s, consts, 1, freqSig, clipSig, skewSig, syncSig, cos);
              Snap() == r.s && soundOut[..1] == r.out
    {
      var f := new InputParam();
      var c := new InputParam();
      var w := new InputParam();
      freqParam, clipParam, skewParam := f, c, w;
      syncAr := syncArIn;
      phase, sweepPhase := residualPhase, residualSweep;
      hardsyncPhase, hardsyncInc := 0.0, 0.0;
      consts := ScConsts(minSweepArg, drand, sampleRate, ln);
      new;
      Start(freqSig, clipSig, skewSig, freqAr, clipAr, skewAr, startPhaseArg);
      ghost var s := Snap();
      assert Supplies(s.fp, freqSig, 1) && Supplies(s.cp, clipSig, 1) && Supplies(s.sp, skewSig, 1);
      Next(1, freqSig, clipSig, skewSig, syncSig, soundOut, cos);
    }

    /** The constructor's work before next(1): the inputs are initialised, then the clocks
        are seeded from the start phase when it is not 0. */
    method Start(freqSig: seq<real>, clipSig: seq<real>, skewSig: seq<real>,
                 freqAr: bool, clipAr: bool, skewAr: bool, startPhaseArg: real)
      requires freqParam != clipParam && freqParam != skewParam && clipParam != skewParam
      requires Shared.ConstsValid(consts) && hardsyncPhase == 0.0 && hardsyncInc == 0.0
      requires freqParam.Snap() == Fresh && clipParam.Snap() == Fresh && skewParam.Snap() == Fresh
      requires |freqSig| >= 1 && |clipSig| >= 1 && |skewSig| >= 1
      modifies this, freqParam, clipParam, skewParam
      ensures Valid()
      ensures Snap() == Started(consts, freqSig, clipSig, skewSig, freqAr, clipAr, skewAr, syncAr,
                                startPhaseArg, old(phase), old(sweepPhase))
    {
      freqParam.Init(freqSig, freqAr);
      clipParam.Init(clipSig, clipAr);
      skewParam.Init(skewSig, skewAr);
      var startphase := startPhaseArg;
      if startphase != 0.0 {
        startphase := if startphase < 0.0 || startphase > 2.0 then 1.25 else startphase;
        InitPhase(startphase, GetFreq(freqSig[0]), Shared.ClipOf(clipSig[0]), Shared.SkewOf(skewSig[0]));
      }
    }

    ghost function Now(): Phases
      reads this
    {
      Phases(phase, sweepPhase, hardsyncPhase, hardsyncInc)
    }

    ghost function Snap(): UnitState
      reads this, freqParam, clipParam, skewParam
    {
      UnitState(freqParam.Snap(), clipParam.Snap(), skewParam.Snap(), syncAr, Now())
    }

    ghost predicate Valid()
      reads this, freqParam, clipParam, skewParam
    {
      && freqParam != clipParam && freqParam != skewParam && clipParam != skewParam
      && Shared.ConstsValid(consts) && Ready(Snap())
    }

    /** init_phase. */
    method InitPhase(phaseIn: real, freq: real, clip: real, skew: real)
      requires Shared.ConstsValid(consts) && freq >= 0.0 && 0.0 <= clip <= 1.0
      modifies this
      ensures Now() == Seeded(old(Now()), consts, phaseIn, freq, clip, skew)
    {
      var e := Shared.SweepEnv(clip, skew, consts, Shared.PhaseInc(consts, freq));
      var target := phaseIn;
      if target < 0.0 {
        target := 1.25;
      }
      if target > 2.0 {
        target := FMod(target, 2.0);
      }
      phase, sweepPhase := SeedSample(e, target);
    }

    /** hardsync_init, called with the unit's own sweep phase. */
    method HardsyncInit(freq: real)
      modifies this
      ensures Now() == HardsyncStart(old(Now()), consts, freq)
    {
      if hardsyncPhase != 0.0 {
        return;
      }
      if sweepPhase == 2.0 {
        phase := 2.0;
        return;
      }
      if freq > consts.maxSyncFreq {
        return;
      }
      hardsyncInc := consts.syncPhaseInc;
      hardsyncPhase := hardsyncInc * 0.5;
    }

    /** The head of the sample loop: a sync request at this sample, then the ramp of an
        active hard sync. */
    method PrepareSample(fire: bool, freqIn: real, cos: Cosine) returns (freq: real)
      requires Shared.ConstsValid(consts) && PhasesValid(Now()) && freqIn >= 0.0
      modifies this
      ensures Boost(Now(), freq) == Prepared(old(Now()), consts, fire, freqIn, cos)
    {
      if fire {
        HardsyncInit(freqIn);
      }
      freq := freqIn;
      if hardsyncPhase != 0.0 {
        var syncsweep := 0.5 * (1.0 - cos(hardsyncPhase));
        freq := Shared.Ramp(freq, consts.maxSyncFreq, syncsweep);
        hardsyncPhase := hardsyncPhase + hardsyncInc;
        if hardsyncPhase > PI {
          hardsyncPhase := PI;
          hardsyncInc := 0.0;
        }
      }
    }

    /** The waveform shaping: the pure cosine at or above the threshold frequency, otherwise
        first the half of the cycle, then the segment within it. */
    method ShapeSample(freq: real, clip: real, skew: real, phaseInc: real, cos: Cosine) returns (audio: real)
      requires Shared.ConstsValid(consts) && freq >= 0.0 && 0.0 <= clip <= 1.0
      requires phaseInc == Shared.PhaseInc(consts, freq)
      modifies this
      ensures Clocks(audio, phase, sweepPhase) == Shaped(old(Now()), consts, freq, clip, skew, cos)
      ensures hardsyncPhase == old(hardsyncPhase) && hardsyncInc == old(hardsyncInc)
    {
      if freq >= consts.maxSweepFreq {
        audio := cos(PI * sweepPhase);
        phase := sweepPhase;
        sweepPhase := sweepPhase + phaseInc;
      } else {
        var e := Shared.SweepEnv(clip, skew, consts, phaseInc);
        audio, phase, sweepPhase := HalvesSample(e, phase, sweepPhase, cos);
      }
    }

    /** The wraparound test after the linear clock has advanced; ending a hard sync scans
        the sync input again from the current sample i. */
    method WrapCycle(freq: real, clip: real, skew: real, phaseInc: real, i: int, n: int, sync: int,
                     syncSig: seq<real>) returns (newSync: int)
      requires Shared.ConstsValid(consts) && PhasesValid(Now()) && freq >= 0.0 && 0.0 <= clip <= 1.0
      requires phaseInc == Shared.PhaseInc(consts, freq)
      requires 0 <= i && (hardsyncPhase != 0.0 ==> n <= |syncSig|)
      modifies this
      ensures var w := Wrap(old(Now()), consts, freq, clip, skew);
              Now() == w.u && newSync == (if w.rescan then FirstSync(syncSig, i, n) else sync)
    {
      newSync := sync;
      if sweepPhase >= 2.0 && phase >= 2.0 {
        if hardsyncPhase != 0.0 {
          sweepPhase, phase := 0.0, 0.0;
          hardsyncPhase, hardsyncInc := 0.0, 0.0;
          newSync := FindSync(syncSig, i, n);
        } else {
          phase := phase - 2.0;
          if phase > phaseInc {
            phase := phaseInc * 0.5;
          }
          if freq < consts.maxSweepFreq {
            var e := Shared.SweepEnv(clip, skew, consts, phaseInc);
            sweepPhase := DownRestart(e, phase);
          } else {
            sweepPhase := phase;
          }
        }
      }
    }

    /** The sample loop's body after the inputs are read. */
    method SampleBody(freqIn: real, clip: real, skew: real, i: int, n: int, sync: int, syncSig: seq<real>,
                      cos: Cosine) returns (audio: real, newSync: int)
      requires Shared.ConstsValid(consts) && PhasesValid(Now()) && freqIn >= 0.0 && 0.0 <= clip <= 1.0
      requires 0 <= i && (n <= |syncSig| || (sync < 0 && hardsyncPhase == 0.0))
      modifies this
      ensures var r := Sample(old(Now()), consts, i == sync, freqIn, clip, skew, cos);
              && Now() == r.u && audio == r.audio
              && newSync == (if r.rescan then FirstSync(syncSig, i, n) else sync)
    {
      ghost var u := Now();
      var freq := PrepareSample(i == sync, freqIn, cos);
      ghost var b := Prepared(u, consts, i == sync, freqIn, cos);
      var phaseInc := Shared.PhaseInc(consts, freq);
      audio := ShapeSample(freq, clip, skew, phaseInc, cos);
      ghost var c := Shaped(b.u, consts, b.freq, clip, skew, cos);
      phase := phase + phaseInc;
      newSync := WrapCycle(freq, clip, skew, phaseInc, i, n, sync, syncSig);
    }
  
    /** One pass of the sample loop: read the three inputs, then compute the sample. */
    method Tick(i: int, n: int, sync: int, syncSig: seq<real>, cos: Cosine) returns (audio: real, newSync: int)
      requires Valid() && Runnable(Snap(), consts, i, n, sync, syncSig) && i < n
      modifies this, freqParam, clipParam, skewParam
      ensures Valid()
      ensures TickOf(old(Snap()), consts, i, n, sync, syncSig, cos) == Ticked(Snap(), newSync, audio)
    {
      var f := freqParam.GetNext(i);
      var c := clipParam.GetNext(i);
      var w := skewParam.GetNext(i);
      audio, newSync := SampleBody(GetFreq(f), Shared.ClipOf(c), Shared.SkewOf(w), i, n, sync, syncSig, cos);
    }

    /** next(nSamples): reinit the inputs, scan the sync input, then the sample loop, which
        writes the block's samples into soundOut and nothing past them. */
    method Next(n: int, freqSig: seq<real>, clipSig: seq<real>, skewSig: seq<real>, syncSig: seq<real>,
                soundOut: array<real>, cos: Cosine)
      requires Valid() && 1 <= n <= soundOut.Length
      requires Supplies(freqParam.Snap(), freqSig, n) && Supplies(clipParam.Snap(), clipSig, n)
      requires Supplies(skewParam.Snap(), skewSig, n)
      requires syncAr ==> n <= |syncSig|
      modifies this, freqParam, clipParam, skewParam, soundOut
      ensures Valid()
      ensures var r := Block(old(Snap()), consts, n, freqSig, clipSig, skewSig, syncSig, cos);
              Snap() == r.s && soundOut[..n] == r.out
      ensures old(freqParam.host).ControlRate? ==> freqParam.value == freqSig[0] && freqParam.change == 0.0
      ensures old(clipParam.host).ControlRate? ==> clipParam.value == clipSig[0] && clipParam.change == 0.0
      ensures old(skewParam.host).ControlRate? ==> skewParam.value == skewSig[0] && skewParam.change == 0.0
      ensures soundOut[n..] == old(soundOut[n..])
    {
      ghost var s := Snap();
      freqParam.Reinit(freqSig, n);
      clipParam.Reinit(clipSig, n);
      skewParam.Reinit(skewSig, n);
      var sync := -1;
      if syncAr {
        sync := FindSync(syncSig, 0, n);
      }
      SampleLoop(n, sync, syncSig, soundOut, cos);
      if s.fp.host.ControlRate? {
        BlockSettles(s.fp, freqSig, n);
      }
      if s.cp.host.ControlRate? {
        BlockSettles(s.cp, clipSig, n);
      }
      if s.sp.host.ControlRate? {
        BlockSettles(s.sp, skewSig, n);
      }
    }

    /** next's sample loop over the n samples of the block, from the sync index sync. */
    method SampleLoop(n: int, sync: int, syncSig: seq<real>, soundOut: array<real>, cos: Cosine)
      requires Valid() && Runnable(Snap(), consts, 0, n, sync, syncSig) && n <= soundOut.Length
      modifies this, freqParam, clipParam, skewParam, soundOut
      ensures Valid()
      ensures var r := Played(old(Snap()), consts, n, n, sync, syncSig, cos);
              Snap() == r.s && soundOut[..n] == r.out
      ensures var s0 := old(Snap());
              && Moved(s0.fp, freqParam.Snap(), n) && Moved(s0.cp, clipParam.Snap(), n)
              && Moved(s0.sp, skewParam.Snap(), n)
      ensures soundOut[n..] == old(soundOut[n..])
    {
      ghost var s0 := Snap();
      var sync' := sync;
      var i := 0;
      while i < n
        invariant 0 <= i <= n && Valid()
        invariant At(s0, i, n, sync, syncSig, cos, sync', soundOut)
        invariant Moved(s0.fp, freqParam.Snap(), i) && Moved(s0.cp, clipParam.Snap(), i)
        invariant Moved(s0.sp, skewParam.Snap(), i)
        invariant soundOut[n..] == old(soundOut[n..])
      {
        sync' := Step(i, n, sync', syncSig, cos, soundOut, s0, sync);
        i := i + 1;
      }
    }

    /** The loop of next after i samples: the unit and the first i outputs are those of
        Played from s0, and sync' is its pending trigger. */
    ghost predicate At(s0: UnitState, i: int, n: int, sync: int, syncSig: seq<real>, cos: Cosine,
                       sync': int, soundOut: array<real>)
      reads this, freqParam, clipParam, skewParam, soundOut
    {
      && Runnable(s0, consts, 0, n, sync, syncSig) && 0 <= i <= n <= soundOut.Length
      && var p := Played(s0, consts, i, n, sync, syncSig, cos);
         Snap() == p.s && sync' == p.sync && soundOut[..i] == p.out
    }

    /** One pass of the loop of next: sample i is computed and stored. */
    method Step(i: int, n: int, sync': int, syncSig: seq<real>, cos: Cosine, soundOut: array<real>,
                ghost s0: UnitState, ghost sync: int) returns (newSync: int)
      requires Valid() && i < n && At(s0, i, n, sync, syncSig, cos, sync', soundOut)
      requires Moved(s0.fp, freqParam.Snap(), i) && Moved(s0.cp, clipParam.Snap(), i)
      requires Moved(s0.sp, skewParam.Snap(), i)
      modifies this, freqParam, clipParam, skewParam, soundOut
      ensures Valid() && At(s0, i + 1, n, sync, syncSig, cos, newSync, soundOut)
      ensures Moved(s0.fp, freqParam.Snap(), i + 1) && Moved(s0.cp, clipParam.Snap(), i + 1)
      ensures Moved(s0.sp, skewParam.Snap(), i + 1)
      ensures soundOut[n..] == old(soundOut[n..])
    {
      ghost var u := Snap();
      var audio;
      audio, newSync := Tick(i, n, sync', syncSig, cos);
      soundOut[i] := audio;
      assert soundOut[..i + 1] == old(soundOut[..i]) + [audio];
      ControlRateSamples(s0.fp, u.fp, i);
      ControlRateSamples(s0.cp, u.cp, i);
      ControlRateSamples(s0.sp, u.sp, i);
    }
  }

  /** The unit as the constructor leaves it before its call of next(1): the inputs set up
      by init, no hard sync, and the clocks seeded by init_phase unless the start phase is
      0. */
  function Started(k: Shared.Consts, freqSig: seq<real>, clipSig: seq<real>, skewSig: seq<real>,
                   freqAr: bool, clipAr: bool, skewAr: bool, syncAr: bool, startPhase: real,
                   residualPhase: real, residualSweep: real): (s: UnitState)
    requires Shared.ConstsValid(k) && |freqSig| >= 1 && |clipSig| >= 1 && |skewSig| >= 1
    ensures Ready(s) && s.syncAr == syncAr && s.u.hardsyncPhase == 0.0 && s.u.hardsyncInc == 0.0
    ensures s.fp.host.AudioRate? <==> freqAr
    ensures s.cp.host.AudioRate? <==> clipAr
    ensures s.sp.host.AudioRate? <==> skewAr
    ensures startPhase == 0.0 ==> s.u.phase == residualPhase && s.u.sweepPhase == residualSweep
    ensures startPhase != 0.0 ==>
      s.u == Seeded(Phases(residualPhase, residualSweep, 0.0, 0.0), k, StartPhaseOf(startPhase), GetFreq(freqSig[0]), Shared.ClipOf(clipSig[0]), Shared.SkewOf(skewSig[0]))
  {
    var u := Phases(residualPhase, residualSweep, 0.0, 0.0);
    var u := if startPhase != 0.0 then
      Seeded(u, k, StartPhaseOf(startPhase), GetFreq(freqSig[0]), Shared.ClipOf(clipSig[0]), Shared.SkewOf(skewSig[0]))
    else u;
    UnitState(Initialised(Fresh, freqSig, freqAr), Initialised(Fresh, clipSig, clipAr),
              Initialised(Fresh, skewSig, skewAr), syncAr, u)
  }
}
