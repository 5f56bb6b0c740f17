/** The isochronic pulse envelopes and the sigmoid/drop beat curves, shared
    by the synthesiser and the plot back-end. Doubles are reals; tanh, exp,
    log and sin are parameters, and a lemma that needs a fact about one of
    them asks for it in its `requires`. */
module Curves {
  import opened CText
  import opened Wrappers
  import Clock

  /** The fractional part x - floor(x). */
  function Frac(x: real): (f: real)
    ensures 0.0 <= f < 1.0
    ensures (x - f).Floor as real == x - f
  {
    x - x.Floor as real
  }

  /** Shifting by a whole number of cycles leaves the fractional part alone. */
  lemma FracShift(x: real, k: int)
    ensures Frac(x + k as real) == Frac(x)
  {
    assert (x + k as real).Floor == x.Floor + k;
  }

  /** The fractional part of a value already in [-1, 1). */
  lemma FracSmall(x: real)
    requires -1.0 <= x < 1.0
    ensures Frac(x) == if x < 0.0 then x + 1.0 else x
  {
    if x < 0.0 {
      assert x.Floor == -1;
    } else {
      assert x.Floor == 0;
    }
  }

  // ---------------------------------------------------------------------
  // Edge shapes

  const EdgeHard: int := 0
  const EdgeLinear: int := 1
  const EdgeSmooth: int := 2
  const EdgeSmoother: int := 3

  /** A product of two positive reals is positive. */
  lemma MulPos(a: real, b: real)
    requires a > 0.0 && b > 0.0
    ensures a * b > 0.0
  {
  }

  /** The smoothstep polynomial of edge mode 2 and of the legacy gate. */
  function Smoothstep(x: real): real {
    x * x * (3.0 - 2.0 * x)
  }

  /** Smoothstep is positive on (0,1); v names 3 - 2x. */
  lemma SmoothstepPositive(x: real, v: real)
    requires 0.0 < x < 1.0 && v == 3.0 - 2.0 * x
    ensures 0.0 < Smoothstep(x)
  {
    MulPos(x, v);
    MulPos(x, x * v);
    assert Smoothstep(x) == x * (x * v);
  }

  /** Smoothstep is below 1 on (0,1), since 1 minus it is (1 - x)^2 (1 + 2x);
      y and z name 1 - x and 1 + 2x. */
  lemma SmoothstepBelowOne(x: real, y: real, z: real)
    requires 0.0 < x < 1.0 && y == 1.0 - x && z == 1.0 + 2.0 * x
    ensures Smoothstep(x) < 1.0
  {
    MulPos(y, z);
    MulPos(y, y * z);
    assert 1.0 - Smoothstep(x) == y * (y * z);
  }

  /** Smoothstep of a point in (0,1] is in (0,1], below 1 inside. */
  lemma SmoothstepBounds(x: real)
    ensures 0.0 < x <= 1.0 ==> 0.0 < Smoothstep(x) <= 1.0
    ensures 0.0 < x < 1.0 ==> Smoothstep(x) < 1.0
  {
    if 0.0 < x < 1.0 {
      SmoothstepPositive(x, 3.0 - 2.0 * x);
      SmoothstepBelowOne(x, 1.0 - x, 1.0 + 2.0 * x);
    }
  }

  /** The smootherstep polynomial of edge mode 3. */
  function Smootherstep(x: real): real {
    x * x * x * (x * (x * 6.0 - 15.0) + 10.0)
  }

  /** Smootherstep lies in (0,1) on (0,1); y, w and h name 1 - x, x - 5/4
      and 6x^2 + 3x + 1. */
  lemma SmootherstepBounds(x: real, y: real, w: real, h: real)
    requires 0.0 < x < 1.0 && y == 1.0 - x && w == x - 1.25 && h == 6.0 * x * x + 3.0 * x + 1.0
    ensures 0.0 < Smootherstep(x) < 1.0
  {
    assert x * x * x > 0.0;
    assert w * w >= 0.0;
    var g := 6.0 * (w * w) + 0.625;
    assert x * (x * 6.0 - 15.0) + 10.0 == g;
    MulPos(x * x * x, g);
    assert h > 0.0;
    MulPos(y, h);
    MulPos(y, y * h);
    MulPos(y, y * (y * h));
    assert 1.0 - x * x * x * (x * (x * 6.0 - 15.0) + 10.0) == y * (y * (y * h));
  }

  /** iso_edge_shape(): the ramp used on the attack and release edges of the
      gate. Modes other than 0, 1 and 3 are smoothstep. */
  function EdgeShape(x: real, mode: int): (r: real)
    ensures 0.0 <= r <= 1.0
    ensures x <= 0.0 ==> r == 0.0
    ensures x >= 1.0 ==> r == 1.0
    ensures 0.0 < x < 1.0 ==> (r == 1.0 <==> mode == EdgeHard)
  {
    if x <= 0.0 then 0.0
    else if x >= 1.0 then 1.0
    else if mode == EdgeHard then (if x > 0.0 then 1.0 else 0.0)
    else if mode == EdgeLinear then x
    else if mode == EdgeSmoother then
      SmootherstepBounds(x, 1.0 - x, x - 1.25, 6.0 * x * x + 3.0 * x + 1.0);
      Smootherstep(x)
    else
      SmoothstepBounds(x);
      Smoothstep(x)
  }

  /** An unknown edge mode behaves as smoothstep. */
  lemma EdgeShapeDefault(x: real, mode: int)
    requires mode != EdgeHard && mode != EdgeLinear && mode != EdgeSmoother
    ensures EdgeShape(x, mode) == EdgeShape(x, EdgeSmooth)
  {
  }

  /** The soft edges are point-symmetric about (1/2, 1/2), so a release edge
      is the attack edge run backwards. */
  lemma EdgeShapeSymmetric(x: real, mode: int)
    requires mode != EdgeHard
    ensures EdgeShape(1.0 - x, mode) == 1.0 - EdgeShape(x, mode)
  {
    if 0.0 < x < 1.0 {
      var y := 1.0 - x;
      if mode == EdgeSmoother {
        assert Smootherstep(y) == 1.0 - Smootherstep(x);
      } else if mode != EdgeLinear {
        assert Smoothstep(y) == 1.0 - Smoothstep(x);
      }
    }
  }

  // ---------------------------------------------------------------------
  // The custom duty-cycle gate (`-I`)

  /** (x / duty) where the gate divides by its duty. With duty 0 the only
      division reached has a negative numerator, whose IEEE result -inf the
      gate then treats like any position outside the window; -1 stands for
      it here. */
  function OverDuty(x: real, duty: real): (u: real)
    ensures duty > 0.0 ==> u * duty == x
  {
    if duty == 0.0 then -1.0 else x / duty
  }

  /** Position of `phase` (in [0,1)) inside the on-window that opens at
      `start` and lasts `duty` cycles, possibly wrapping past the end of the
      cycle; -1 when the code leaves it unset. */
  function WindowPos(phase: real, start: real, duty: real): real {
    var end := start + duty;
    if end <= 1.0 then
      if start <= phase < end then OverDuty(phase - start, duty) else -1.0
    else if phase >= start then OverDuty(phase - start, duty)
    else if phase < end - 1.0 then OverDuty(phase + (1.0 - start), duty)
    else -1.0
  }

  /** The gate level at window position u: zero outside (0,1), an attack
      edge, a flat top, a release edge. */
  function GateAt(u: real, attack: real, release: real, mode: int): (m: real)
    ensures 0.0 <= m <= 1.0
    ensures m != 0.0 ==> 0.0 < u < 1.0
  {
    if u <= 0.0 || u >= 1.0 then 0.0
    else if attack > 0.0 && u < attack then EdgeShape(u / attack, mode)
    else if u <= 1.0 - release then 1.0
    else if release > 0.0 then EdgeShape((1.0 - u) / release, mode)
    else 0.0
  }

  /** isochronic_mod_factor_phase_custom() and _iso_mod_custom(): the gate
      level at a phase given in cycles. (The code's second correction,
      adding 1 to a negative reduced phase, cannot fire on reals.) */
  function IsoModCustom(phase: real, start: real, duty: real, attack: real, release: real, mode: int): (m: real)
    ensures 0.0 <= m <= 1.0
    ensures duty >= 1.0 ==> m == 1.0
    ensures duty < 1.0 && m != 0.0 ==> 0.0 < WindowPos(Frac(phase), start, duty) < 1.0
  {
    if duty >= 1.0 then 1.0
    else GateAt(WindowPos(Frac(phase), start, duty), attack, release, mode)
  }

  /** The gate repeats every cycle. */
  lemma IsoModCustomPeriodic(phase: real, k: int, start: real, duty: real, attack: real, release: real, mode: int)
    ensures IsoModCustom(phase + k as real, start, duty, attack, release, mode)
         == IsoModCustom(phase, start, duty, attack, release, mode)
  {
    FracShift(phase, k);
  }

  /** x / d against 0 and 1 for a positive d. */
  lemma DivAgainstUnit(x: real, d: real)
    requires d > 0.0
    ensures x / d > 0.0 <==> x > 0.0
    ensures x / d < 1.0 <==> x < d
  {
    var q := x / d;
    assert q * d == x;
    if q > 0.0 {
      MulPos(q, d);
    } else if q < 0.0 {
      MulPos(-q, d);
    }
    var e := q - 1.0;
    assert e * d == x - d;
    if e > 0.0 {
      MulPos(e, d);
    } else if e < 0.0 {
      MulPos(-e, d);
    }
  }

  /** x / d lies in [0,1] for x in [0,d]. */
  lemma DivAtMostOne(x: real, d: real)
    requires 0.0 <= x <= d && d > 0.0
    ensures 0.0 <= x / d <= 1.0
  {
    DivAgainstUnit(x, d);
    if x == d {
      assert x / d == 1.0;
    }
  }

  /** For a phase in [0,1) and a valid window, the code's case split finds
      the wrapped position ((phase - start) mod 1) / duty whenever that lies
      in (0,1), and lies outside (0,1) itself otherwise. */
  lemma WindowPosWrapped(phase: real, start: real, duty: real)
    requires 0.0 <= phase < 1.0 && 0.0 <= start < 1.0 && 0.0 < duty < 1.0
    ensures var v := Frac(phase - start) / duty;
            if 0.0 < v < 1.0 then WindowPos(phase, start, duty) == v
            else !(0.0 < WindowPos(phase, start, duty) < 1.0)
  {
    var x := phase - start;
    FracSmall(x);
    var w := Frac(x);
    DivAgainstUnit(w, duty);
    if phase >= start {
      assert w == x;
    } else {
      assert w == x + 1.0;
      assert x + 1.0 == phase + (1.0 - start);
      DivAgainstUnit(phase + (1.0 - start), duty);
    }
    DivAgainstUnit(phase - start, duty);
  }

  /** The gate as a function of the wrapped position alone: the level at
      any phase is GateAt(((phase - start) mod 1) / duty). */
  lemma IsoModCustomIsWrappedGate(phase: real, start: real, duty: real, attack: real, release: real, mode: int)
    requires 0.0 <= start < 1.0 && 0.0 < duty < 1.0
    ensures IsoModCustom(phase, start, duty, attack, release, mode)
         == GateAt(Frac(phase - start) / duty, attack, release, mode)
  {
    var f := Frac(phase);
    WindowPosWrapped(f, start, duty);
    var k := phase.Floor;
    assert f - start == (phase - start) + (-k) as real;
    FracShift(phase - start, -k);
  }

  /** A window from 0.9 lasting 0.3 cycles wraps: phases 0.95 and 0.05 lie
      inside it and phase 0.5 is silent. */
  lemma IsoModCustomWrapExample(attack: real, release: real, mode: int)
    ensures WindowPos(Frac(0.95), 0.9, 0.3) == 1.0 / 6.0
    ensures WindowPos(Frac(0.05), 0.9, 0.3) == 0.5
    ensures IsoModCustom(0.5, 0.9, 0.3, attack, release, mode) == 0.0
  {
    assert Frac(0.95) == 0.95;
    assert Frac(0.05) == 0.05;
    assert Frac(0.5) == 0.5;
  }

  // ---------------------------------------------------------------------
  // The legacy threshold gate

  /** sin_tables[] has this many entries per waveform ... */
  const TableSize: int := 16384
  /** ... of amplitude up to this. */
  const TableAmp: int := 0x7FFFF

  /** The gate of a wave sample: silent up to 0.3, then smoothstep of the
      part of the wave above 0.3, scaled to reach 1 at the crest. */
  function LegacyGate(wave: real): (m: real)
    ensures wave <= 1.0 ==> 0.0 <= m <= 1.0
    ensures wave <= 1.0 ==> (m > 0.0 <==> wave > 0.3)
    ensures wave == 1.0 ==> m == 1.0
  {
    if wave > 0.3 then
      var y := (wave - 0.3) / 0.7;
      SmoothstepBounds(y);
      Smoothstep(y)
    else 0.0
  }

  /** The table entry wave_sample_phase() reads for a phase already reduced
      to [0,1): the bucket the phase falls in, kept below TableSize. */
  function TableIndex(phase: real): (idx: int)
    ensures 0 <= idx < TableSize
    ensures 0.0 <= phase < 1.0 ==> idx as real <= phase * TableSize as real < idx as real + 1.0
  {
    var i := Trunc(phase * TableSize as real);
    if i >= TableSize then TableSize - 1 else if i < 0 then 0 else i
  }

  /** wave_sample_phase(): one waveform's table looked up at a phase in
      cycles, scaled to about [-1,1]. */
  method WaveSamplePhase(table: seq<int>, phase: real) returns (w: real)
    requires |table| == TableSize
    ensures w == table[TableIndex(Frac(phase))] as real / TableAmp as real
  {
    var p := phase;
    while p < 0.0
      invariant Frac(p) == Frac(phase)
      decreases if p < 0.0 then (-p).Floor + 1 else 0
    {
      FracShift(p, 1);
      p := p + 1.0;
    }
    p := p - p.Floor as real;
    var idx := Trunc(p * TableSize as real);
    if idx >= TableSize {
      idx := TableSize - 1;
    }
    w := table[idx] as real / TableAmp as real;
  }

  /** isochronic_mod_factor_phase_legacy(): the legacy gate of the table
      sample at `phase`. */
  method IsoModLegacy(table: seq<int>, phase: real) returns (m: real)
    requires |table| == TableSize
    ensures m == LegacyGate(table[TableIndex(Frac(phase))] as real / TableAmp as real)
  {
    var wave := WaveSamplePhase(table, phase);
    m := LegacyGate(wave);
  }

  /** With table entries within the table amplitude the legacy gate stays
      in [0,1], and is silent exactly where the sample is at most 0.3. */
  lemma IsoModLegacyBounds(table: seq<int>, phase: real)
    requires |table| == TableSize
    requires forall i :: 0 <= i < |table| ==> -TableAmp <= table[i] <= TableAmp
    ensures var wave := table[TableIndex(Frac(phase))] as real / TableAmp as real;
            0.0 <= LegacyGate(wave) <= 1.0 && (LegacyGate(wave) == 0.0 <==> wave <= 0.3)
  {
    var v := table[TableIndex(Frac(phase))];
    assert v as real <= TableAmp as real;
  }

  // ---------------------------------------------------------------------
  // The plot back-end's closed-form waveforms

  /** math.pi as a decimal. */
  const Pi: real := 3.141592653589793

  const WaveSine: int := 0
  const WaveSquare: int := 1
  const WaveTriangle: int := 2
  const WaveSawtooth: int := 3

  /** _wave_sample(): the waveform at a phase in cycles. */
  function WaveSample(waveform: int, phase01: real, sin: real -> real): real {
    var phase := Frac(phase01) * 2.0 * Pi;
    if waveform == WaveSquare then (if sin(phase) >= 0.0 then 1.0 else -1.0)
    else if waveform == WaveTriangle then
      if phase < Pi then 2.0 * phase / Pi - 1.0 else 3.0 - 2.0 * phase / Pi
    else if waveform == WaveSawtooth then phase / Pi - 1.0
    else sin(phase)
  }

  /** The waveform repeats every cycle. */
  lemma WaveSamplePeriodic(waveform: int, phase01: real, k: int, sin: real -> real)
    ensures WaveSample(waveform, phase01 + k as real, sin) == WaveSample(waveform, phase01, sin)
  {
    FracShift(phase01, k);
  }

  /** Square is only ever +1 or -1; triangle and sawtooth stay in [-1,1],
      and so does sine given that sin does. */
  lemma WaveSampleRange(waveform: int, phase01: real, sin: real -> real)
    requires forall x :: -1.0 <= sin(x) <= 1.0
    ensures waveform == WaveSquare ==> WaveSample(waveform, phase01, sin) in {1.0, -1.0}
    ensures -1.0 <= WaveSample(waveform, phase01, sin) <= 1.0
  {
    var f := Frac(phase01);
    assert f * 2.0 * Pi / Pi == 2.0 * f;
    assert 2.0 * (f * 2.0 * Pi) / Pi == 4.0 * f;
  }

  /** _iso_mod_legacy(): the legacy gate over the closed-form waveform. */
  function PlotIsoModLegacy(phase: real, waveform: int, sin: real -> real): real {
    LegacyGate(WaveSample(waveform, phase, sin))
  }

  /** The plotted legacy gate repeats every cycle and stays in [0,1]. */
  lemma PlotIsoModLegacyRange(phase: real, k: int, waveform: int, sin: real -> real)
    requires forall x :: -1.0 <= sin(x) <= 1.0
    ensures 0.0 <= PlotIsoModLegacy(phase, waveform, sin) <= 1.0
    ensures PlotIsoModLegacy(phase + k as real, waveform, sin) == PlotIsoModLegacy(phase, waveform, sin)
  {
    WaveSampleRange(waveform, phase, sin);
    WaveSamplePeriodic(waveform, phase, k, sin);
  }

  // ---------------------------------------------------------------------
  // Sigmoid beat curve

  /** The coefficients that make a * u + b run from `start` at u0 to
      `target` at u1. */
  function LineThrough(u0: real, u1: real, start: real, target: real): (ab: (real, real))
    requires u0 != u1
    ensures ab.0 * u0 + ab.1 == start
    ensures ab.0 * u1 + ab.1 == target
  {
    var a := (target - start) / (u1 - u0);
    assert a * (u1 - u0) == target - start;
    (a, start - a * u0)
  }

  const SigmoidBadCurve := "Sigmoid parameters produce an invalid curve (try different l/h values)"

  function Abs(x: real): real {
    if x < 0.0 then -x else x
  }

  /** tanh(l (t - d/2 - h)): the raw sigmoid over a drop of d minutes. */
  function SigmoidRaw(t: real, d: real, l: real, h: real, tanh: real -> real): real {
    tanh(l * (t - d / 2.0 - h))
  }

  /** The sigmoid coefficients (a, b) of create_sigmoid() and
      setup_sigmoid_func_curve(), refused when the raw sigmoid barely moves
      over the drop. */
  function SigmoidCoefficients(d: real, l: real, h: real, start: real, target: real, tanh: real -> real): (r: Result<(real, real)>)
    ensures var u0 := SigmoidRaw(0.0, d, l, h, tanh);
            var u1 := SigmoidRaw(d, d, l, h, tanh);
            (r.Ok? <==> Abs(u1 - u0) >= 0.000000001)
            && (r.Ok? ==> r.value.0 * u0 + r.value.1 == start && r.value.0 * u1 + r.value.1 == target)
  {
    var u0 := SigmoidRaw(0.0, d, l, h, tanh);
    var u1 := SigmoidRaw(d, d, l, h, tanh);
    if Abs(u1 - u0) < 0.000000001 then Err(SigmoidBadCurve)
    else Ok(LineThrough(u0, u1, start, target))
  }

  /** sigmoid_eval() and _sigmoid_eval(): the beat at t minutes. */
  function SigmoidEval(t: real, d: real, target: real, l: real, h: real, a: real, b: real, tanh: real -> real): real {
    if t >= d then target else a * SigmoidRaw(t, d, l, h, tanh) + b
  }

  /** With the coefficients of SigmoidCoefficients the curve starts at the
      start beat, holds the target from d on, and its formula meets the
      plateau at d with no jump. */
  lemma SigmoidEvalEnds(d: real, l: real, h: real, start: real, target: real, tanh: real -> real, t: real)
    requires d > 0.0
    requires SigmoidCoefficients(d, l, h, start, target, tanh).Ok?
    ensures var (a, b) := SigmoidCoefficients(d, l, h, start, target, tanh).value;
            SigmoidEval(0.0, d, target, l, h, a, b, tanh) == start
            && (t >= d ==> SigmoidEval(t, d, target, l, h, a, b, tanh) == target)
            && a * SigmoidRaw(d, d, l, h, tanh) + b == target
  {
  }

  // ---------------------------------------------------------------------
  // Step rounding of `-p drop` / `-p sigmoid`

  /** Timings after rounding: number of steps, drop and hold lengths in
      seconds. */
  datatype StepPlan = StepPlan(nStep: int, len0: int, len1: int)

  /** The rounding shared by create_drop() and create_sigmoid(): the drop is
      a whole number of steps, at least two; without slide the hold is
      rounded up to whole steps as well. */
  function RoundSteps(len0: int, len1: int, steplen: int, slide: bool): (p: StepPlan)
    requires steplen > 0
    ensures p.nStep >= 2 && p.len0 == p.nStep * steplen
    ensures slide ==> p.len1 == len1
  {
    var n := 1 + CDiv(len0 - 1, steplen);
    var n := if n < 2 then 2 else n;
    StepPlan(n, n * steplen, if slide then len1 else (1 + CDiv(len1 - 1, steplen)) * steplen)
  }

  /** (1 + (n - 1) / s) * s is the least multiple of s that is at least n,
      for n >= 1. */
  lemma RoundUpToMultiple(n: int, s: int)
    requires n >= 1 && s > 0
    ensures var m := (1 + CDiv(n - 1, s)) * s;
            n <= m < n + s
  {
    var q := (n - 1) / s;
    var r := (n - 1) % s;
    assert CDiv(n - 1, s) == q;
    assert n - 1 == q * s + r && 0 <= r < s;
    assert (1 + q) * s == q * s + s;
  }

  /** The step count is max(2, ceil(len0 / steplen)): the rounded drop covers
      len0, and is the shortest whole number of steps that does unless the
      two-step minimum applies; likewise a positive hold without slide
      becomes the shortest whole number of steps covering it. */
  lemma RoundStepsIsCeiling(len0: int, len1: int, steplen: int, slide: bool)
    requires steplen > 0
    ensures var p := RoundSteps(len0, len1, steplen, slide);
            p.len0 >= len0
            && (p.nStep > 2 ==> p.len0 - steplen < len0)
            && (!slide && len1 >= 1 ==> len1 <= p.len1 < len1 + steplen)
  {
    var p := RoundSteps(len0, len1, steplen, slide);
    if len0 >= 1 {
      RoundUpToMultiple(len0, steplen);
      var n := 1 + CDiv(len0 - 1, steplen);
      if n >= 2 {
        assert p.len0 == n * steplen;
      } else {
        assert p.len0 == 2 * steplen;
      }
    } else {
      assert CDiv(len0 - 1, steplen) <= 0;
      assert p.nStep == 2;
    }
    if !slide && len1 >= 1 {
      RoundUpToMultiple(len1, steplen);
    }
  }

  /** A hold of 0 without slide is not kept at 0: it becomes one step
      (for any step longer than a second). */
  lemma ZeroHoldBecomesOneStep(len0: int, steplen: int)
    requires steplen > 1
    ensures RoundSteps(len0, 0, steplen, false).len1 == steplen
  {
    assert CDiv(-1, steplen) == 0;
  }

  const SigmoidTooShort := "Sigmoid drop-time must be at least 1 minute"

  /** create_sigmoid()'s timing: a drop under a minute is refused, then the
      common rounding. */
  function SigmoidSteps(len0: int, len1: int, steplen: int, slide: bool): (r: Result<StepPlan>)
    requires steplen > 0
    ensures r.Ok? <==> len0 >= 60
    ensures r.Ok? ==> r.value.len0 >= 60
  {
    if len0 < 60 then Err(SigmoidTooShort)
    else
      RoundStepsIsCeiling(len0, len1, steplen, slide);
      Ok(RoundSteps(len0, len1, steplen, slide))
  }

  // ---------------------------------------------------------------------
  // Stepped / sliding exponential drop

  /** t limited to [lo, hi]. */
  function Clamp(t: real, lo: real, hi: real): real {
    if t < lo then lo else if t > hi then hi else t
  }

  /** The step index drop_eval() uses for t minutes (t already clamped). */
  function DropIndex(t: real, nStep: int, steplen: int): (idx: int)
    requires steplen > 0
    ensures nStep >= 1 ==> 0 <= idx <= nStep - 1
  {
    var i := Trunc(t * 60.0 / steplen as real);
    var i := if i < 0 then 0 else i;
    if i > nStep - 1 then nStep - 1 else i
  }

  /** The part of the way, in [0,1], from 10 Hz towards the target that the
      drop has gone at t minutes of a d-minute drop. */
  function DropFraction(t: real, d: real, slide: bool, nStep: int, steplen: int): (f: real)
    requires d > 0.0
    ensures 0.0 <= f <= 1.0
  {
    var tc := Clamp(t, 0.0, d);
    if !slide && nStep > 1 && steplen > 0 then
      var i := DropIndex(tc, nStep, steplen);
      DivAtMostOne(i as real, (nStep - 1) as real);
      i as real / (nStep - 1) as real
    else
      DivAtMostOne(tc, d);
      tc / d
  }

  /** 10 (target / 10)^f, written as the code does with exp and log: the
      beat after the part f of an exponential glide from 10 Hz. */
  function Glide(target: real, f: real, exp: real -> real, log: real -> real): real {
    10.0 * exp(log(target / 10.0) * f)
  }

  /** drop_eval() and _drop_eval(): the beat at t minutes, an exponential
      glide (or staircase) from 10 Hz to the target. */
  function DropEval(t: real, d: real, target: real, slide: bool, nStep: int, steplen: int,
                    exp: real -> real, log: real -> real): real
  {
    if d <= 0.0 then target
    else Glide(target, DropFraction(t, d, slide, nStep, steplen), exp, log)
  }

  /** Times before the start and after the end of the drop are clamped. */
  lemma DropEvalClamps(t: real, d: real, target: real, slide: bool, nStep: int, steplen: int,
                       exp: real -> real, log: real -> real)
    requires d > 0.0
    ensures t < 0.0 ==>
              DropEval(t, d, target, slide, nStep, steplen, exp, log) == DropEval(0.0, d, target, slide, nStep, steplen, exp, log)
    ensures t > d ==>
              DropEval(t, d, target, slide, nStep, steplen, exp, log) == DropEval(d, d, target, slide, nStep, steplen, exp, log)
  {
    if t < 0.0 {
      assert DropFraction(t, d, slide, nStep, steplen) == DropFraction(0.0, d, slide, nStep, steplen);
    }
    if t > d {
      assert DropFraction(t, d, slide, nStep, steplen) == DropFraction(d, d, slide, nStep, steplen);
    }
  }

  /** The staircase is used only without slide, with more than one step and
      a positive step; otherwise the glide is continuous in t. */
  lemma DropEvalSliding(t: real, d: real, target: real, slide: bool, nStep: int, steplen: int,
                        exp: real -> real, log: real -> real)
    requires d > 0.0 && 0.0 <= t <= d
    requires slide || nStep <= 1 || steplen <= 0
    ensures DropEval(t, d, target, slide, nStep, steplen, exp, log) == Glide(target, t / d, exp, log)
  {
    assert DropFraction(t, d, slide, nStep, steplen) == t / d;
  }

  /** (n s) / s == n for a positive s. */
  lemma DivCancel(n: real, s: real)
    requires s > 0.0
    ensures (n * s) / s == n
  {
    var q := (n * s) / s;
    assert q * s == n * s;
    var e := q - n;
    assert e * s == 0.0;
    if e > 0.0 {
      MulPos(e, s);
    } else if e < 0.0 {
      MulPos(-e, s);
    }
  }

  /** m / m == 1 for a positive m. */
  lemma DivSelf(m: real)
    requires m > 0.0
    ensures m / m == 1.0
  {
    DivCancel(1.0, m);
  }

  /** A drop of d = nStep * steplen / 60 minutes is nStep steps long. */
  lemma StepsInDrop(nStep: int, steplen: int)
    requires steplen > 0
    ensures ((nStep * steplen) as real / 60.0) * 60.0 / steplen as real == nStep as real
  {
    assert (nStep * steplen) as real == nStep as real * steplen as real;
    DivCancel(nStep as real, steplen as real);
  }

  /** The glide is at 10 Hz at its start and at the target at its end. */
  lemma GlideEnds(target: real, exp: real -> real, log: real -> real)
    requires exp(0.0) == 1.0 && exp(log(target / 10.0)) == target / 10.0
    ensures Glide(target, 0.0, exp, log) == 10.0
    ensures Glide(target, 1.0, exp, log) == target
  {
  }

  /** A drop that is a whole number of steps is all the way down from its
      end on, on the staircase as on the slide. */
  lemma DropFractionAtEnd(t: real, nStep: int, steplen: int, slide: bool)
    requires steplen > 0 && nStep >= 2
    requires t >= (nStep * steplen) as real / 60.0
    ensures DropFraction(t, (nStep * steplen) as real / 60.0, slide, nStep, steplen) == 1.0
  {
    var d := (nStep * steplen) as real / 60.0;
    assert Clamp(t, 0.0, d) == d;
    if !slide {
      StepsInDrop(nStep, steplen);
      assert DropIndex(d, nStep, steplen) == nStep - 1;
      DivSelf((nStep - 1) as real);
    } else {
      DivSelf(d);
    }
  }

  /** With the drop rounded by RoundSteps (d = len0 / 60) the curve starts
      at 10 Hz and holds exactly the target from d on, on both branches. */
  lemma DropEvalEnds(t: real, plan: StepPlan, steplen: int, target: real, slide: bool,
                     exp: real -> real, log: real -> real)
    requires steplen > 0 && plan.nStep >= 2 && plan.len0 == plan.nStep * steplen
    requires exp(0.0) == 1.0 && exp(log(target / 10.0)) == target / 10.0
    ensures var d := plan.len0 as real / 60.0;
            DropEval(0.0, d, target, slide, plan.nStep, steplen, exp, log) == 10.0
            && (t >= d ==> DropEval(t, d, target, slide, plan.nStep, steplen, exp, log) == target)
  {
    var d := plan.len0 as real / 60.0;
    GlideEnds(target, exp, log);
    assert DropIndex(0.0, plan.nStep, steplen) == 0;
    assert DropFraction(0.0, d, slide, plan.nStep, steplen) == 0.0;
    if t >= d {
      DropFractionAtEnd(t, plan.nStep, steplen, slide);
    }
  }

  // ---------------------------------------------------------------------
  // Curve registration

  /** The part of the registered function curve that the setup computes:
      its end time of day and the curve's own parameters. */
  datatype SigmoidCurve = SigmoidCurve(startMs: int, endMs: int, d: real, a: real, b: real)
  datatype DropCurve = DropCurve(startMs: int, endMs: int, logRatio: real)

  /** (start_ms + (int)(1000 span + 0.5)) % H24: where a curve of `span`
      seconds starting at start_ms ends. */
  function CurveEnd(startMs: int, span: real): int {
    CRem(startMs + Trunc(1000.0 * span + 0.5), Clock.H24)
  }

  /** A curve starting inside the day ends inside the day, its span rounded
      to the nearest millisecond later on the 24-hour clock. */
  lemma CurveEndAfterSpan(startMs: int, span: real)
    requires Clock.InDay(startMs) && span > 0.0
    ensures Clock.InDay(CurveEnd(startMs, span))
    ensures Clock.TPer0(startMs, CurveEnd(startMs, span)) == Trunc(1000.0 * span + 0.5) % Clock.H24
  {
    var n := Trunc(1000.0 * span + 0.5);
    assert n >= 0;
    var e := CurveEnd(startMs, span);
    assert e == (startMs + n) % Clock.H24;
    var q := (startMs + n) / Clock.H24;
    assert startMs + n == q * Clock.H24 + e;
    var r := n % Clock.H24;
    assert n == (n / Clock.H24) * Clock.H24 + r;
    if e >= startMs {
      assert e - startMs == n - (q * Clock.H24 - 0);
      assert r == e - startMs;
    } else {
      assert r == e - startMs + Clock.H24;
    }
  }

  /** setup_sigmoid_func_curve(): None when a span is not positive or the
      sigmoid is flat; otherwise the curve over beat_span/60 minutes. */
  function SetupSigmoidCurve(startMs: int, carrSpan: real, beat0: real, beat1: real, beatSpan: real,
                             l: real, h: real, tanh: real -> real): (c: Option<SigmoidCurve>)
    ensures c.Some? ==> carrSpan > 0.0 && beatSpan > 0.0 && c.value.d == beatSpan / 60.0
    ensures c.Some? ==>
              c.value.a * SigmoidRaw(0.0, c.value.d, l, h, tanh) + c.value.b == beat0
              && c.value.a * SigmoidRaw(c.value.d, c.value.d, l, h, tanh) + c.value.b == beat1
  {
    if carrSpan <= 0.0 || beatSpan <= 0.0 then None
    else
      var d := beatSpan / 60.0;
      match SigmoidCoefficients(d, l, h, beat0, beat1, tanh)
      case Err(_) => None
      case Ok((a, b)) => Some(SigmoidCurve(startMs, CurveEnd(startMs, carrSpan), d, a, b))
  }

  /** setup_drop_func_curve(): None unless both spans and both beats are
      positive; otherwise the curve with log(beat1 / beat0). */
  function SetupDropCurve(startMs: int, carrSpan: real, beat0: real, beat1: real, beatSpan: real,
                          log: real -> real): (c: Option<DropCurve>)
    ensures c.Some? <==> carrSpan > 0.0 && beatSpan > 0.0 && beat0 > 0.0 && beat1 > 0.0
    ensures c.Some? ==> c.value.endMs == CurveEnd(startMs, carrSpan)
  {
    if carrSpan <= 0.0 || beatSpan <= 0.0 || beat0 <= 0.0 || beat1 <= 0.0 then None
    else Some(DropCurve(startMs, CurveEnd(startMs, carrSpan), log(beat1 / beat0)))
  }
}
