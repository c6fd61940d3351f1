/** Vocabulary of the waveform's segment model, common to every revision.

    One cycle of the linear clock `phase` runs from 0 to 2 through four segments: a cosine
    sweep down from +1 to -1, a flat part at -1, a cosine sweep up from -1 to +1 and a flat
    part at +1. The warped clock `sweep_phase` (`warped_phase` in the older plugin) reads
    [0, 1) on the down sweep, 1 on the low flat part, [1, 2) on the up sweep and 2 on the
    high flat part; the output on a sweep is cos(pi * warp). `midpoint` is where the first
    half (sweep down and flat low) ends on the linear clock. */
module Shape {
  import opened Libm

  datatype Segment = FallingSweep | FlatLow | RisingSweep | FlatHigh

  /** Linear-clock length of the down sweep: the internal clip (the proportion of a half
      that sweeps) times the first half's length, never less than the minimum sweep. */
  function DownLength(clip: real, midpoint: real, minSweep: real): (r: real)
    ensures r >= minSweep && r >= clip * midpoint
  {
    Max(clip * midpoint, minSweep)
  }

  /** Linear-clock length of the up sweep, over the second half [midpoint, 2]. */
  function UpLength(clip: real, midpoint: real, minSweep: real): (r: real)
    ensures r >= minSweep && r >= clip * (2.0 - midpoint)
  {
    Max(clip * (2.0 - midpoint), minSweep)
  }

  /** The through-zero jump of the linear clock to the opposite side of the waveform:
      phase := 1.5 - phase, plus 2 when that is negative. It maps [0, 2) onto itself. */
  function MirrorPhase(phase: real): (r: real)
    ensures 0.0 <= phase < 2.0 ==> 0.0 <= r < 2.0
    ensures 0.0 <= phase <= 1.5 ==> r + phase == 1.5
    ensures 1.5 < phase ==> r + phase == 3.5
  {
    var p := 1.5 - phase;
    if p < 0.0 then p + 2.0 else p
  }

  /** Mirroring twice gives back the phase: jumping across on a sign change and back on the
      next one lands where the oscillator was. */
  lemma MirrorPhaseInvolution(phase: real)
    requires 0.0 <= phase < 2.0
    ensures MirrorPhase(MirrorPhase(phase)) == phase
  {
    if phase <= 1.5 {
      assert MirrorPhase(phase) == 1.5 - phase;
    } else {
      assert MirrorPhase(phase) == 3.5 - phase;
    }
  }

  /** What a sweep segment works with in one sample: the linear increment, the shortest
      sweep at that increment, the midpoint, the linear-clock lengths of the two sweeps and
      the cap on the warp's advance. */
  datatype Env = Env(phaseInc: real, minSweep: real, midpoint: real, downLength: real, upLength: real,
                     maxSweepInc: real)

  /** The facts every revision establishes about its Env: the increment runs forward, the
      shortest sweep vanishes exactly at zero increment (when the midpoint is then clamped
      to [0, 2]), each sweep is at least the shortest sweep, and the cap lies in (0, 1). */
  predicate EnvValid(e: Env)
  {
    && e.phaseInc >= 0.0
    && e.minSweep >= 0.0
    && (e.minSweep > 0.0 <==> e.phaseInc > 0.0)
    && (e.minSweep == 0.0 ==> 0.0 <= e.midpoint <= 2.0)
    && e.downLength >= e.minSweep && e.upLength >= e.minSweep
    && 0.0 < e.maxSweepInc < 1.0
  }

  /** The Env of a sample whose sweeps take the proportion clip of their halves. */
  function MakeEnv(phaseInc: real, minSweep: real, midpoint: real, clip: real, maxSweepInc: real): (e: Env)
    requires phaseInc >= 0.0 && minSweep >= 0.0 && (minSweep > 0.0 <==> phaseInc > 0.0)
    requires minSweep == 0.0 ==> 0.0 <= midpoint <= 2.0
    requires 0.0 <= clip <= 1.0 && 0.0 < maxSweepInc < 1.0
    ensures EnvValid(e)
    ensures e.phaseInc == phaseInc && e.minSweep == minSweep && e.midpoint == midpoint
    ensures e.maxSweepInc == maxSweepInc
    ensures e.downLength == DownLength(clip, midpoint, minSweep)
    ensures e.upLength == UpLength(clip, midpoint, minSweep)
    ensures minSweep <= midpoint ==> e.downLength <= midpoint
  {
    SweepFitsHalf(clip, midpoint, minSweep);
    Env(phaseInc, minSweep, midpoint, DownLength(clip, midpoint, minSweep),
        UpLength(clip, midpoint, minSweep), maxSweepInc)
  }

  /** A proportion clip of the first half, kept at least the shortest sweep, fits the half
      when the half is at least the shortest sweep. */
  lemma SweepFitsHalf(clip: real, midpoint: real, minSweep: real)
    requires 0.0 <= clip <= 1.0
    ensures 0.0 <= minSweep <= midpoint ==> DownLength(clip, midpoint, minSweep) <= midpoint
  {
    if 0.0 <= minSweep <= midpoint {
      NonNegativeProduct(1.0 - clip, midpoint);
    }
  }

  /** The output and the two clocks after a segment has been shaped. */
  datatype Clocks = Clocks(audio: real, phase: real, warp: real)

  /** The down sweep's warp after its advance, before it is reconciled with the flat part. */
  function DownWarp(e: Env, warp: real): (w: real)
    requires EnvValid(e)
    ensures warp <= w <= warp + e.maxSweepInc
    ensures e.downLength > 0.0 ==> w - warp <= e.phaseInc / e.downLength
  {
    warp + MinRatio(e.phaseInc, e.downLength, e.maxSweepInc)
  }

  /** The down sweep: output cos(pi * warp), then the warp advances by the linear increment
      measured in sweep lengths, at most maxSweepInc. When it passes 1 the linear clock is
      set to the sweep's end plus the overshoot (less the increment added afterwards), and
      the warp either rests at 1 (the flat part) or carries into the up sweep. */
  function SweepDown(e: Env, phase: real, warp: real, cos: Cosine): (c: Clocks)
    requires EnvValid(e) && warp < 1.0
    ensures c.audio == cos(PI * warp)
  {
    var sl := e.downLength;
    var w := DownWarp(e, warp);
    var out := cos(PI * warp);
    if w > 1.0 then
      var flat := e.midpoint - sl;
      var over := (w - 1.0) * sl;
      var ph := e.midpoint - flat + over - e.phaseInc;
      if flat >= over then Clocks(out, ph, 1.0)
      else
        OvershootNeedsIncrement(e, sl, warp, 1.0, flat);
        Clocks(out, ph, 1.0 + (over - flat) / e.upLength)
    else Clocks(out, phase, w)
  }

  /** Within one sample the down sweep's warp advances by at most maxSweepInc and by at most
      the linear increment measured in sweep lengths; short of 1 that advance is all that
      happens. */
  lemma SweepDownAdvance(e: Env, phase: real, warp: real, cos: Cosine)
    requires EnvValid(e) && warp < 1.0
    ensures var sl := e.downLength;
            var w := DownWarp(e, warp);
            var c := SweepDown(e, phase, warp, cos);
            && warp <= w <= warp + e.maxSweepInc
            && (sl > 0.0 ==> (w - warp) * sl <= e.phaseInc)
            && (w <= 1.0 ==> c.warp == w && c.phase == phase)
  {
    var sl := e.downLength;
    if sl > 0.0 {
      StepWithinLength(e.phaseInc, sl, MinRatio(e.phaseInc, sl, e.maxSweepInc));
    }
  }

  /** When the down sweep passes 1, the linear clock after the increment lies at the sweep's
      end plus the overshoot; the warp rests at 1 exactly when the flat part is at least the
      overshoot, and otherwise lands on the up sweep at the point the linear clock has
      reached past the midpoint. */
  lemma SweepDownOvershoot(e: Env, phase: real, warp: real, cos: Cosine)
    requires EnvValid(e) && warp < 1.0 && DownWarp(e, warp) > 1.0
    ensures var sl := e.downLength;
            var over := (DownWarp(e, warp) - 1.0) * sl;
            var c := SweepDown(e, phase, warp, cos);
            && c.phase + e.phaseInc == sl + over
            && (c.warp == 1.0 <==> e.midpoint - sl >= over)
            && (c.warp != 1.0 ==>
                  c.warp > 1.0 &&
                  c.phase + e.phaseInc == e.midpoint + e.upLength * (c.warp - 1.0))
  {
    var sl := e.downLength;
    var flat := e.midpoint - sl;
    var over := (DownWarp(e, warp) - 1.0) * sl;
    var c := SweepDown(e, phase, warp, cos);
    assert c.phase == e.midpoint - flat + over - e.phaseInc;
    OvershootNeedsIncrement(e, sl, warp, 1.0, flat);
    if flat < over {
      var nsl := e.upLength;
      Carry(over - flat, nsl);
      assert c.warp == 1.0 + (over - flat) / nsl;
    } else {
      assert c.warp == 1.0;
    }
  }

  /** The up sweep is the segment: the warp lies in [1, 2) and not on the low flat part. */
  predicate OnUpSweep(e: Env, phase: real, warp: real)
  {
    1.0 <= warp < 2.0 && !(warp == 1.0 && phase < e.midpoint)
  }

  /** The warp the up sweep outputs: leaving the flat part, 1 plus the linear clock's lead
      over the midpoint (at most one increment) in sweep lengths, at most maxSweepInc. */
  function UpStart(e: Env, phase: real, warp: real): (start: real)
    requires EnvValid(e) && OnUpSweep(e, phase, warp)
    ensures warp != 1.0 ==> start == warp
    ensures warp == 1.0 ==> 1.0 <= start <= 1.0 + e.maxSweepInc
  {
    if warp == 1.0 then
      1.0 + MinRatio(Min(phase - e.midpoint, e.phaseInc), e.upLength, e.maxSweepInc)
    else warp
  }

  /** Leaving the flat part, the warp catches up no more of the linear clock than its lead
      over the midpoint and no more than one increment. */
  lemma UpStartCatchesUp(e: Env, phase: real)
    requires EnvValid(e) && OnUpSweep(e, phase, 1.0)
    ensures var sl := e.upLength;
            var start := UpStart(e, phase, 1.0);
            sl > 0.0 ==> (start - 1.0) * sl <= phase - e.midpoint && (start - 1.0) * sl <= e.phaseInc
  {
    var sl := e.upLength;
    if sl > 0.0 {
      var lead := Min(phase - e.midpoint, e.phaseInc);
      StepWithinLength(lead, sl, MinRatio(lead, sl, e.maxSweepInc));
    }
  }

  /** The up sweep's warp after its advance from start, before it is reconciled with the
      high flat part. */
  function UpWarp(e: Env, start: real): (w: real)
    requires EnvValid(e)
    ensures start <= w <= start + e.maxSweepInc
    ensures e.upLength > 0.0 ==> w - start <= e.phaseInc / e.upLength
  {
    start + MinRatio(e.phaseInc, e.upLength, e.maxSweepInc)
  }

  /** The up sweep: output cos(pi * start), where start is the warp after the catch-up, and
      continue from start as SweepUpFrom says. */
  function SweepUp(e: Env, phase: real, warp: real, cos: Cosine): (c: Clocks)
    requires EnvValid(e) && OnUpSweep(e, phase, warp)
    ensures c.audio == cos(PI * UpStart(e, phase, warp))
  {
    SweepUpFrom(e, phase, UpStart(e, phase, warp), cos)
  }

  /** The up sweep from the warp start: advance as on the down sweep; when the warp passes 2
      it rests there (the high flat part) or carries into the next cycle's down sweep. */
  function SweepUpFrom(e: Env, phase: real, start: real, cos: Cosine): (c: Clocks)
    requires EnvValid(e) && 1.0 <= start < 2.0
    ensures c.audio == cos(PI * start)
  {
    var sl := e.upLength;
    var w := UpWarp(e, start);
    var out := cos(PI * start);
    if w > 2.0 then
      var flat := 2.0 - (e.midpoint + sl);
      var over := (w - 2.0) * sl;
      var ph := 2.0 - flat + over - e.phaseInc;
      if flat >= over then Clocks(out, ph, 2.0)
      else
        OvershootNeedsIncrement(e, sl, start, 2.0, flat);
        Clocks(out, ph, 2.0 + (over - flat) / e.downLength)
    else Clocks(out, phase, w)
  }

  /** The up-sweep counterpart of SweepDownAdvance, from the warp after the catch-up. */
  lemma SweepUpAdvance(e: Env, phase: real, start: real, cos: Cosine)
    requires EnvValid(e) && 1.0 <= start < 2.0
    ensures var sl := e.upLength;
            var w := UpWarp(e, start);
            var c := SweepUpFrom(e, phase, start, cos);
            && start <= w <= start + e.maxSweepInc
            && (sl > 0.0 ==> (w - start) * sl <= e.phaseInc)
            && (w <= 2.0 ==> c.warp == w && c.phase == phase)
  {
    var sl := e.upLength;
    if sl > 0.0 {
      StepWithinLength(e.phaseInc, sl, MinRatio(e.phaseInc, sl, e.maxSweepInc));
    }
  }

  /** When the up sweep passes 2, the linear clock after the increment lies at the sweep's
      end plus the overshoot; the warp rests at 2 exactly when the high flat part is at least
      the overshoot, and otherwise lands on the next cycle's down sweep at the point the
      linear clock has reached past 2. */
  lemma SweepUpOvershoot(e: Env, phase: real, start: real, cos: Cosine)
    requires EnvValid(e) && 1.0 <= start < 2.0 && UpWarp(e, start) > 2.0
    ensures var sl := e.upLength;
            var over := (UpWarp(e, start) - 2.0) * sl;
            var c := SweepUpFrom(e, phase, start, cos);
            && c.phase + e.phaseInc == e.midpoint + sl + over
            && (c.warp == 2.0 <==> 2.0 - (e.midpoint + sl) >= over)
            && (c.warp != 2.0 ==>
                  c.warp > 2.0 &&
                  c.phase + e.phaseInc - 2.0 == e.downLength * (c.warp - 2.0))
  {
    var sl := e.upLength;
    var flat := 2.0 - (e.midpoint + sl);
    var over := (UpWarp(e, start) - 2.0) * sl;
    var c := SweepUpFrom(e, phase, start, cos);
    assert c.phase == 2.0 - flat + over - e.phaseInc;
    OvershootNeedsIncrement(e, sl, start, 2.0, flat);
    if flat < over {
      var nsl := e.downLength;
      Carry(over - flat, nsl);
      assert c.warp == 2.0 + (over - flat) / nsl;
    } else {
      assert c.warp == 2.0;
    }
  }

  /** A sweep that overshoots its end by more than the following flat part needs a positive
      increment: at zero increment the warp either does not move or the sweep has zero
      length, so there is nothing to carry. Hence the next sweep's length, at least the
      shortest sweep, is positive where the carry divides by it. */
  lemma OvershootNeedsIncrement(e: Env, sl: real, start: real, end: real, flat: real)
    requires EnvValid(e) && sl >= 0.0 && start < end
    requires e.minSweep == 0.0 && sl == 0.0 ==> flat >= 0.0
    ensures var w := start + MinRatio(e.phaseInc, sl, e.maxSweepInc);
            w > end && flat < (w - end) * sl ==> e.minSweep > 0.0
  {
    if e.minSweep == 0.0 && sl > 0.0 {
      assert e.phaseInc == 0.0;
      assert e.phaseInc / sl == 0.0;
      assert MinRatio(e.phaseInc, sl, e.maxSweepInc) == 0.0;
    }
  }

  /** An advance capped by the ratio a / len covers at most a on the linear clock. */
  lemma StepWithinLength(a: real, len: real, inc: real)
    requires a >= 0.0 && len > 0.0 && inc <= a / len
    ensures inc * len <= a
  {
    MulStrict(len, inc, a / len);
    assert len * (a / len) == a;
  }

  lemma Carry(d: real, len: real)
    requires d > 0.0 && len > 0.0
    ensures d / len > 0.0 && len * (d / len) == d
  {
  }

  /** The warp a new cycle starts from: the linear clock's fraction past 2 measured in down
      sweep lengths, at most maxSweepInc. It never puts the warp ahead of the linear clock on
      the down sweep's map, and lies exactly on that map unless the cap applies. */
  function DownRestart(e: Env, ph: real): (w: real)
    requires EnvValid(e) && ph >= 0.0
    ensures 0.0 <= w <= e.maxSweepInc
    ensures e.downLength > 0.0 ==> w * e.downLength <= ph
    ensures e.downLength > 0.0 && ph / e.downLength <= e.maxSweepInc ==> w * e.downLength == ph
  {
    var sl := e.downLength;
    var w := MinRatio(ph, sl, e.maxSweepInc);
    if sl > 0.0 then
      StepWithinLength(ph, sl, w);
      w
    else w
  }

  /** The down sweep as generate computes it, statement by statement, on the clocks it is
      given: the output, then the warp's advance, then the reconciliation of an overshoot. */
  method DownSweepSample(e: Env, phaseIn: real, warpIn: real, cos: Cosine)
      returns (audio: real, phase: real, warp: real)
    requires EnvValid(e) && warpIn < 1.0
    ensures Clocks(audio, phase, warp) == SweepDown(e, phaseIn, warpIn, cos)
  {
    phase, warp := phaseIn, warpIn;
    var sweepLength := e.downLength;
    audio := cos(PI * warp);
    warp := warp + MinRatio(e.phaseInc, sweepLength, e.maxSweepInc);
    if warp > 1.0 {
      var flatLength := e.midpoint - sweepLength;
      var phaseOvershoot := (warp - 1.0) * sweepLength;
      phase := e.midpoint - flatLength + phaseOvershoot - e.phaseInc;
      if flatLength >= phaseOvershoot {
        warp := 1.0;
      } else {
        var nextSweepLength := e.upLength;
        OvershootNeedsIncrement(e, sweepLength, warpIn, 1.0, flatLength);
        warp := 1.0 + (phaseOvershoot - flatLength) / nextSweepLength;
      }
    }
  }

  /** Leaving the low flat part, the warp catches up with the linear clock, as generate
      computes it. */
  method CatchUp(e: Env, phase: real, warpIn: real) returns (warp: real)
    requires EnvValid(e) && OnUpSweep(e, phase, warpIn)
    ensures warp == UpStart(e, phase, warpIn)
  {
    warp := warpIn;
    if warp == 1.0 {
      warp := 1.0 + MinRatio(Min(phase - e.midpoint, e.phaseInc), e.upLength, e.maxSweepInc);
    }
  }

  /** The up sweep as generate computes it: the catch-up, then the sweep proper. */
  method UpSweepSample(e: Env, phaseIn: real, warpIn: real, cos: Cosine)
      returns (audio: real, phase: real, warp: real)
    requires EnvValid(e) && OnUpSweep(e, phaseIn, warpIn)
    ensures Clocks(audio, phase, warp) == SweepUp(e, phaseIn, warpIn, cos)
  {
    var start := CatchUp(e, phaseIn, warpIn);
    audio, phase, warp := UpSweepFromSample(e, phaseIn, start, cos);
  }

  /** The up sweep from the warp start, statement by statement: output, advance and
      reconciliation with the high flat part. */
  method UpSweepFromSample(e: Env, phaseIn: real, start: real, cos: Cosine)
      returns (audio: real, phase: real, warp: real)
    requires EnvValid(e) && 1.0 <= start < 2.0
    ensures Clocks(audio, phase, warp) == SweepUpFrom(e, phaseIn, start, cos)
  {
    phase, warp := phaseIn, start;
    var sweepLength := e.upLength;
    audio := cos(PI * warp);
    warp := warp + MinRatio(e.phaseInc, sweepLength, e.maxSweepInc);
    if warp > 2.0 {
      var flatLength := 2.0 - (e.midpoint + sweepLength);
      var phaseOvershoot := (warp - 2.0) * sweepLength;
      phase := 2.0 - flatLength + phaseOvershoot - e.phaseInc;
      if flatLength >= phaseOvershoot {
        warp := 2.0;
      } else {
        var nextSweepLength := e.downLength;
        OvershootNeedsIncrement(e, sweepLength, start, 2.0, flatLength);
        warp := 2.0 + (phaseOvershoot - flatLength) / nextSweepLength;
      }
    }
  }

  /** The segment the else-if chain of the Rust and Java generate selects. */
  function SegmentOf(warp: real, phase: real, midpoint: real): (g: Segment)
    ensures g == FallingSweep <==> warp < 1.0
    ensures g == FlatLow <==> warp == 1.0 && phase < midpoint
    ensures g == RisingSweep <==> 1.0 <= warp < 2.0 && !(warp == 1.0 && phase < midpoint)
    ensures g == FlatHigh <==> 2.0 <= warp
  {
    if warp < 1.0 then FallingSweep
    else if warp == 1.0 && phase < midpoint then FlatLow
    else if warp < 2.0 then RisingSweep
    else FlatHigh
  }

  /** The slow-path shaping of one sample: the segment the clocks are on decides the output
      and the new clocks; the flat parts hold the output at -1 and +1, the low one keeping
      the warp at 1 and the high one pinning it at 2. */
  function Segments(e: Env, phase: real, warp: real, cos: Cosine): (c: Clocks)
    requires EnvValid(e)
    ensures -1.0 <= c.audio <= 1.0
    ensures warp == 1.0 && phase < e.midpoint ==> c == Clocks(-1.0, phase, 1.0)
    ensures warp >= 2.0 ==> c == Clocks(1.0, phase, 2.0)
  {
    match SegmentOf(warp, phase, e.midpoint)
    case FallingSweep => SweepDown(e, phase, warp, cos)
    case FlatLow => Clocks(-1.0, phase, 1.0)
    case RisingSweep => SweepUp(e, phase, warp, cos)
    case FlatHigh => Clocks(1.0, phase, 2.0)
  }

  /** The warped clock keeps to its cycle over one slow-path sample, when the increment is at
      most the shortest sweep and the down sweep fits the first half: it never falls below 0,
      and it passes 2 only by carrying from the up sweep into the next cycle, and then the
      linear clock passes 2 as well once it has advanced. */
  lemma SegmentsKeepCycle(e: Env, phase: real, warp: real, cos: Cosine)
    requires EnvValid(e) && 0.0 <= warp <= 2.0
    requires e.phaseInc <= e.minSweep && e.downLength <= e.midpoint
    ensures var c := Segments(e, phase, warp, cos);
            && 0.0 <= c.warp
            && (c.warp > 2.0 ==> c.phase + e.phaseInc > 2.0)
  {
    if warp < 1.0 {
      DownKeepsCycle(e, phase, warp, cos);
    } else if !(warp == 1.0 && phase < e.midpoint) && warp < 2.0 {
      var start := UpStart(e, phase, warp);
      SweepUpAdvance(e, phase, start, cos);
      if UpWarp(e, start) > 2.0 {
        SweepUpOvershoot(e, phase, start, cos);
        var c := SweepUpFrom(e, phase, start, cos);
        if c.warp > 2.0 {
          OvershootNeedsIncrement(e, e.upLength, start, 2.0, 2.0 - (e.midpoint + e.upLength));
          PositiveProduct(e.downLength, c.warp - 2.0);
        }
      }
    }
  }

  /** The down sweep ends in [0, 2]: an overshoot past the flat part is at most one
      increment, which the up sweep, at least the shortest sweep long, takes in one piece. */
  lemma DownKeepsCycle(e: Env, phase: real, warp: real, cos: Cosine)
    requires EnvValid(e) && 0.0 <= warp < 1.0
    requires e.phaseInc <= e.minSweep && e.downLength <= e.midpoint
    ensures 0.0 <= SweepDown(e, phase, warp, cos).warp <= 2.0
  {
    SweepDownAdvance(e, phase, warp, cos);
    if DownWarp(e, warp) > 1.0 {
      DownOvershootKeepsCycle(e, phase, warp, cos);
    }
  }

  /** The case of DownKeepsCycle in which the down sweep passes 1. */
  lemma DownOvershootKeepsCycle(e: Env, phase: real, warp: real, cos: Cosine)
    requires EnvValid(e) && 0.0 <= warp < 1.0 && DownWarp(e, warp) > 1.0
    requires e.phaseInc <= e.minSweep && e.downLength <= e.midpoint
    ensures 0.0 <= SweepDown(e, phase, warp, cos).warp <= 2.0
  {
    SweepDownAdvance(e, phase, warp, cos);
    SweepDownOvershoot(e, phase, warp, cos);
    if SweepDown(e, phase, warp, cos).warp != 1.0 {
      OvershootNeedsIncrement(e, e.downLength, warp, 1.0, e.midpoint - e.downLength);
      OvershootWithin(e.downLength, warp, DownWarp(e, warp), e.phaseInc);
    }
    DownWarpWithin(e, DownWarp(e, warp), (DownWarp(e, warp) - 1.0) * e.downLength,
                   SweepDown(e, phase, warp, cos));
  }

  /** The arithmetic of DownKeepsCycle, over the advanced warp w, its overshoot over on the
      linear clock and the clocks c that the down sweep's two lemmas describe. */
  lemma DownWarpWithin(e: Env, w: real, over: real, c: Clocks)
    requires EnvValid(e) && 0.0 <= w
    requires e.phaseInc <= e.minSweep && e.downLength <= e.midpoint
    requires w <= 1.0 ==> c.warp == w
    requires w > 1.0 && c.warp != 1.0 ==>
               && c.warp > 1.0 && e.minSweep > 0.0 && over <= e.phaseInc
               && e.upLength * (c.warp - 1.0) == over - (e.midpoint - e.downLength)
    ensures 0.0 <= c.warp <= 2.0
  {
    if w > 1.0 && c.warp != 1.0 {
      CarryWithin(over - (e.midpoint - e.downLength), e.upLength, c.warp - 1.0);
    }
  }

  /** The part of an advance from warp to w that lies past 1 covers no more linear time than
      the whole advance. */
  lemma OvershootWithin(sl: real, warp: real, w: real, inc: real)
    requires sl > 0.0 && warp < 1.0 < w && (w - warp) * sl <= inc
    ensures (w - 1.0) * sl <= inc
  {
    MulStrict(sl, w - 1.0, w - warp);
  }

  /** A carry d over a length len, measured as x lengths, is at most one length when d is. */
  lemma CarryWithin(d: real, len: real, x: real)
    requires d <= len && len > 0.0 && len * x == d
    ensures x <= 1.0
  {
    if x > 1.0 {
      MulStrict(len, 1.0, x);
    }
  }

  /** generate's slow path as an else-if chain on the warp, the sweeps computed by the
      methods above. */
  method SegmentSample(e: Env, phaseIn: real, warpIn: real, cos: Cosine)
      returns (audio: real, phase: real, warp: real)
    requires EnvValid(e)
    ensures Clocks(audio, phase, warp) == Segments(e, phaseIn, warpIn, cos)
  {
    if warpIn < 1.0 {
      audio, phase, warp := DownSweepSample(e, phaseIn, warpIn, cos);
    } else if warpIn == 1.0 && phaseIn < e.midpoint {
      audio, phase, warp := -1.0, phaseIn, 1.0;
    } else if warpIn < 2.0 {
      audio, phase, warp := UpSweepSample(e, phaseIn, warpIn, cos);
    } else {
      audio, phase, warp := 1.0, phaseIn, 2.0;
    }
  }

  /** The plugins' test for the first half of the cycle: the warp short of 1, or at 1 with
      the linear clock short of the midpoint. It selects the down sweep or the low flat
      part, and nothing else. */
  function FirstHalf(warp: real, phase: real, midpoint: real): (b: bool)
    ensures b <==> SegmentOf(warp, phase, midpoint) in {FallingSweep, FlatLow}
  {
    warp < 1.0 || (warp == 1.0 && phase < midpoint)
  }

  /** The plugins' slow path: first the half, then the segment within it, the sweeps
      computed by the methods above. It shapes the sample as the else-if chain does. */
  method HalvesSample(e: Env, phaseIn: real, warpIn: real, cos: Cosine)
      returns (audio: real, phase: real, warp: real)
    requires EnvValid(e)
    ensures Clocks(audio, phase, warp) == Segments(e, phaseIn, warpIn, cos)
  {
    if FirstHalf(warpIn, phaseIn, e.midpoint) {
      if warpIn < 1.0 {
        audio, phase, warp := DownSweepSample(e, phaseIn, warpIn, cos);
      } else {
        audio, phase, warp := -1.0, phaseIn, 1.0;
      }
    } else {
      if warpIn < 2.0 {
        audio, phase, warp := UpSweepSample(e, phaseIn, warpIn, cos);
      } else {
        audio, phase, warp := 1.0, phaseIn, 2.0;
      }
    }
  }

  // ---------------------------------------------------------------------------------------
  //  Seeding the clocks at a point of the symbolic phase
  // ---------------------------------------------------------------------------------------

  datatype Seed = Seed(phase: real, warp: real)

  /** The requested start point on the symbolic phase [0, 2]: a negative request means the
      upward zero crossing 1.25; one past 2 is reduced modulo 2 to the same point of the
      cycle. */
  function SeedTarget(phaseIn: real): (t: real)
    ensures 0.0 <= t <= 2.0
    ensures 0.0 <= phaseIn <= 2.0 ==> t == phaseIn
    ensures phaseIn < 0.0 ==> t == 1.25
    ensures phaseIn > 2.0 ==> t < 2.0 && (phaseIn - t) / 2.0 == ((phaseIn - t) / 2.0).Floor as real
  {
    var p := if phaseIn < 0.0 then 1.25 else phaseIn;
    if p > 2.0 then FMod(p, 2.0) else p
  }

  /** Both clocks set to the point t of the symbolic phase, whose quarters are the four
      segments: the first and third quarters map onto the two sweeps' warps, the flat
      quarters pin the warp at 1 and 2. */
  function SeedClocks(e: Env, t: real): (c: Seed)
    ensures t < 0.5 ==> c.warp == 2.0 * t
    ensures 0.5 <= t < 1.0 ==> c.warp == 1.0
    ensures 1.0 <= t < 1.5 ==> c.warp == 2.0 * t - 1.0
    ensures 1.5 <= t ==> c.warp == 2.0
  {
    if t < 1.0 then
      var sl := e.downLength;
      if t < 0.5 then Seed(sl * (t * 2.0), t * 2.0)
      else
        var flat := e.midpoint - sl;
        Seed(sl + flat * ((t - 0.5) * 2.0), 1.0)
    else
      var sl := e.upLength;
      if t < 1.5 then Seed(e.midpoint + sl * ((t - 1.0) * 2.0), 1.0 + (t - 1.0) * 2.0)
      else
        var flat := 2.0 - (e.midpoint + sl);
        Seed(e.midpoint + sl + flat * ((t - 1.5) * 2.0), 2.0)
  }

  /** set_init_phase's seeding of the clocks at the point t, as an else-if chain on the
      quarter t lies in. */
  method SeedSample(e: Env, t: real) returns (phase: real, warp: real)
    ensures Seed(phase, warp) == SeedClocks(e, t)
  {
    warp := t;
    if warp < 1.0 {
      var sweepLength := e.downLength;
      if warp < 0.5 {
        phase := sweepLength * (warp * 2.0);
        warp := warp * 2.0;
      } else {
        var flatLength := e.midpoint - sweepLength;
        phase := sweepLength + flatLength * ((warp - 0.5) * 2.0);
        warp := 1.0;
      }
    } else {
      var sweepLength := e.upLength;
      if warp < 1.5 {
        phase := e.midpoint + sweepLength * ((warp - 1.0) * 2.0);
        warp := 1.0 + (warp - 1.0) * 2.0;
      } else {
        var flatLength := 2.0 - (e.midpoint + sweepLength);
        phase := e.midpoint + sweepLength + flatLength * ((warp - 1.5) * 2.0);
        warp := 2.0;
      }
    }
  }

  /** Seeded on the first quarter, the linear clock is the down sweep's length times the warp,
      the point of the down sweep's map generate uses. */
  lemma SeedOnDownSweep(e: Env, t: real)
    requires 0.0 <= t < 0.5
    ensures var c := SeedClocks(e, t);
            0.0 <= c.warp < 1.0 && c.phase == e.downLength * c.warp
  {
  }

  /** Seeded on the second quarter, the linear clock lies between the down sweep's end and the
      midpoint, on the low flat part. */
  lemma SeedOnFlatLow(e: Env, t: real)
    requires 0.5 <= t < 1.0
    ensures var c := SeedClocks(e, t);
            var sl := e.downLength;
            c.warp == 1.0 && Min(sl, e.midpoint) <= c.phase <= Max(sl, e.midpoint)
  {
    Between(e.downLength, e.midpoint, (t - 0.5) * 2.0);
  }

  /** Seeded on the third quarter, the linear clock is the midpoint plus the up sweep's length
      times the warp's progress past 1. */
  lemma SeedOnUpSweep(e: Env, t: real)
    requires 1.0 <= t < 1.5
    ensures var c := SeedClocks(e, t);
            1.0 <= c.warp < 2.0 && c.phase == e.midpoint + e.upLength * (c.warp - 1.0)
  {
  }

  /** Seeded on the last quarter, the linear clock lies between the up sweep's end and 2, on the
      high flat part. */
  lemma SeedOnFlatHigh(e: Env, t: real)
    requires 1.5 <= t <= 2.0
    ensures var c := SeedClocks(e, t);
            var end := e.midpoint + e.upLength;
            c.warp == 2.0 && Min(end, 2.0) <= c.phase <= Max(end, 2.0)
  {
    Between(e.midpoint + e.upLength, 2.0, (t - 1.5) * 2.0);
  }

  /** The segment generate selects on seeded clocks is the quarter that was requested; a
      request on the low flat quarter lands on the up sweep when the first half has no flat
      part. */
  lemma SeedSelectsSegment(e: Env, t: real)
    requires 0.0 <= t <= 2.0
    ensures var c := SeedClocks(e, t);
            var sl := e.downLength;
            SegmentOf(c.warp, c.phase, e.midpoint) ==
              if t < 0.5 then FallingSweep
              else if t < 1.0 then (if sl < e.midpoint then FlatLow else RisingSweep)
              else if t < 1.5 then RisingSweep
              else FlatHigh
  {
    if 0.5 <= t < 1.0 {
      var sl := e.downLength;
      var flat := e.midpoint - sl;
      var u := (t - 0.5) * 2.0;
      assert SeedClocks(e, t).phase == sl + flat * u;
      if flat > 0.0 {
        MulStrict(flat, u, 1.0);
      } else {
        NonNegativeProduct(-flat, 1.0 - u);
        assert flat * u >= flat;
      }
    } else if 1.0 <= t < 1.5 {
      var sl2 := e.upLength;
      if t == 1.0 {
        assert SeedClocks(e, t).phase == e.midpoint;
      }
    }
  }

  /** a + (b - a) * u lies between a and b for u in [0, 1]. */
  lemma Between(a: real, b: real, u: real)
    requires 0.0 <= u <= 1.0
    ensures Min(a, b) <= a + (b - a) * u <= Max(a, b)
  {
    if a <= b {
      NonNegativeProduct(u, b - a);
      NonNegativeProduct(1.0 - u, b - a);
    } else {
      NonNegativeProduct(u, a - b);
      NonNegativeProduct(1.0 - u, a - b);
    }
  }

  /** Products of the facts the sweep-length proofs need. */
  lemma PositiveProduct(a: real, b: real)
    requires a > 0.0 && b > 0.0
    ensures a * b > 0.0
  {
  }

  lemma NonNegativeProduct(a: real, b: real)
    requires a >= 0.0 && b >= 0.0
    ensures a * b >= 0.0
  {
  }
}
