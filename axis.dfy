/** Axis layout of the curve graphs: integer x-axis ticks (the C
    build_integer_axis_ticks and the plot script's _build_integer_ticks),
    the padded y-range with its whole-number ticks, and the ten uniform
    x-ticks of the C sigmoid graph. */
module Axis {
  import opened CText
  import Curves

  // ---------------------------------------------------------------------
  // Rounding

  /** C floor(x + 0.5): halves go up. */
  function RoundHalfUp(x: real): (n: int)
    ensures x - 0.5 < n as real <= x + 0.5
  {
    (x + 0.5).Floor
  }

  /** Python round() of a float: nearest integer, halves go to the even one. */
  function RoundHalfEven(x: real): (n: int)
    ensures x - 0.5 <= n as real <= x + 0.5
    ensures Curves.Abs(n as real - x) == 0.5 ==> n % 2 == 0
  {
    var f := x.Floor;
    var r := x - f as real;
    if r < 0.5 then f
    else if r > 0.5 then f + 1
    else if f % 2 == 0 then f
    else f + 1
  }

  /** An integer within half a unit of x, not at a tie, is its rounding. */
  lemma RoundHalfEvenOf(x: real, n: int)
    requires n as real - 0.5 < x < n as real + 0.5
    ensures RoundHalfEven(x) == n
  {
  }

  /** The two roundings disagree exactly on halves whose floor is even. */
  lemma RoundingsDisagreeOnEvenHalves(x: real)
    ensures RoundHalfEven(x) != RoundHalfUp(x) <==> (x - x.Floor as real == 0.5 && x.Floor % 2 == 0)
  {
    var f := x.Floor;
    if x - f as real == 0.5 {
      assert (x + 0.5).Floor == f + 1;
    }
  }

  // ---------------------------------------------------------------------
  // Integer x-axis ticks

  /** The run of ticks v, v + step, v + 2 step, ... that do not exceed limit. */
  function TickRun(v: real, step: real, limit: real): seq<real>
    requires step >= 1.0
    decreases if v > limit then 0 else (limit - v).Floor + 1
  {
    if v > limit then [] else [v] + TickRun(v + step, step, limit)
  }

  /** A run starts at v, climbs by step, stays within limit and stops at the
      last value that does. */
  lemma {:induction false} TickRunShape(v: real, step: real, limit: real)
    requires step >= 1.0
    decreases if v > limit then 0 else (limit - v).Floor + 1
    ensures var run := TickRun(v, step, limit);
      (|run| > 0 <==> v <= limit) &&
      (|run| > 0 ==> run[0] == v && limit < run[|run| - 1] + step) &&
      (forall i :: 0 <= i < |run| ==> run[i] <= limit) &&
      (forall i :: 0 <= i < |run| - 1 ==> run[i + 1] == run[i] + step)
  {
    if v <= limit {
      var tail := TickRun(v + step, step, limit);
      TickRunShape(v + step, step, limit);
      var run := [v] + tail;
      assert forall i :: 0 < i < |run| ==> run[i] == tail[i - 1];
    }
  }

  /** The plot script's tick spacing: max(1, int(round(max_v / 10))). */
  function PyStep(maxV: real): (s: int)
    ensures s >= 1
  {
    var r := RoundHalfEven(maxV / 10.0);
    if r < 1 then 1 else r
  }

  /** The C tick spacing: floor(max_v / 10 + 0.5), at least 1. */
  function CStep(maxV: real): (s: real)
    ensures s >= 1.0 && s.Floor as real == s
  {
    var s := RoundHalfUp(maxV / 10.0) as real;
    if s < 1.0 then 1.0 else s
  }

  function Last(s: seq<real>): real
    requires |s| > 0
  {
    s[|s| - 1]
  }

  /** Closing tick: max_v is appended unless the last tick is within 1e-9 of it. */
  function EndAt(t: seq<real>, maxV: real): seq<real>
    requires |t| > 0
  {
    if Curves.Abs(Last(t) - maxV) > 0.000000001 then t + [maxV] else t
  }

  /** _build_integer_ticks(max_v): multiples of the step up to max_v, then
      max_v itself when the last multiple is not within 1e-9 of it. */
  function PyTicks(maxV: real): seq<real> {
    if maxV <= 0.0 then [0.0, 1.0]
    else
      var run := TickRun(0.0, PyStep(maxV) as real, maxV + 0.000000001);
      EndAt(if run == [] then [0.0] else run, maxV)
  }

  /** build_integer_axis_ticks(max_v, ticks, max_ticks): the same layout
      with the C step, cut off at max_ticks entries. */
  function CTicks(maxV: real, maxTicks: int): seq<real> {
    if maxTicks < 2 then []
    else if maxV <= 0.0 then [0.0, 1.0]
    else
      var run := TickRun(0.0, CStep(maxV), maxV + 0.000000001);
      var cut := if |run| <= maxTicks then run else run[..maxTicks];
      var t := if |cut| < 1 then [0.0] else cut;
      if |t| < maxTicks then EndAt(t, maxV) else t
  }

  /** The plot script's ticks start at 0, climb by the step, end within 1e-9
      of max_v, and the last gap is at most one step. */
  lemma PyTicksShape(maxV: real)
    requires maxV > 0.0
    ensures var t := PyTicks(maxV);
      |t| >= 1 && t[0] == 0.0 &&
      (forall i :: 0 <= i < |t| - 1 ==> t[i] < t[i + 1]) &&
      (forall i :: 0 <= i < |t| - 2 ==> t[i + 1] == t[i] + PyStep(maxV) as real) &&
      (|t| >= 2 ==> t[|t| - 1] - t[|t| - 2] <= PyStep(maxV) as real) &&
      (forall i :: 0 <= i < |t| ==> t[i] <= maxV + 0.000000001) &&
      Curves.Abs(t[|t| - 1] - maxV) <= 0.000000001
  {
    var step := PyStep(maxV) as real;
    var limit := maxV + 0.000000001;
    var run := TickRun(0.0, step, limit);
    TickRunShape(0.0, step, limit);
    assert PyTicks(maxV) == EndAt(run, maxV);
    EndAtShape(run, step, maxV);
  }

  /** Closing a run from 0 that stops within one step of max_v. */
  lemma EndAtShape(run: seq<real>, step: real, maxV: real)
    requires maxV > 0.0 && step >= 1.0 && |run| > 0 && run[0] == 0.0
    requires maxV + 0.000000001 < run[|run| - 1] + step
    requires forall i :: 0 <= i < |run| ==> run[i] <= maxV + 0.000000001
    requires forall i :: 0 <= i < |run| - 1 ==> run[i + 1] == run[i] + step
    ensures var t := EndAt(run, maxV);
      |t| >= 1 && t[0] == 0.0 &&
      (forall i :: 0 <= i < |t| - 1 ==> t[i] < t[i + 1]) &&
      (forall i :: 0 <= i < |t| - 2 ==> t[i + 1] == t[i] + step) &&
      (|t| >= 2 ==> t[|t| - 1] - t[|t| - 2] <= step) &&
      (forall i :: 0 <= i < |t| ==> t[i] <= maxV + 0.000000001) &&
      Curves.Abs(t[|t| - 1] - maxV) <= 0.000000001
  {
    if Curves.Abs(Last(run) - maxV) > 0.000000001 {
      var t := run + [maxV];
      assert forall i :: 0 <= i < |run| ==> t[i] == run[i];
      assert Last(run) < maxV;
    }
  }

  /** Where the two roundings give the same step and max_ticks leaves room,
      the C ticks are the plot script's ticks. */
  lemma CTicksMatchPyTicks(maxV: real, maxTicks: int)
    requires maxV > 0.0
    requires CStep(maxV) == PyStep(maxV) as real
    requires maxTicks > |TickRun(0.0, CStep(maxV), maxV + 0.000000001)|
    ensures CTicks(maxV, maxTicks) == PyTicks(maxV)
  {
    TickRunShape(0.0, CStep(maxV), maxV + 0.000000001);
  }

  /** At max_v = 25 the script rounds 2.5 to 2 and C rounds it to 3, so the
      second tick differs. */
  lemma TickStepsDivergeAt25()
    ensures PyStep(25.0) == 2 && CStep(25.0) == 3.0
    ensures PyTicks(25.0)[1] == 2.0 && CTicks(25.0, 64)[1] == 3.0
  {
    Steps25();
    var limit := 25.0 + 0.000000001;
    assert TickRun(0.0, 2.0, limit) == [0.0] + TickRun(2.0, 2.0, limit);
    assert TickRun(2.0, 2.0, limit) == [2.0] + TickRun(4.0, 2.0, limit);
    assert TickRun(0.0, 3.0, limit) == [0.0] + TickRun(3.0, 3.0, limit);
    assert TickRun(3.0, 3.0, limit) == [3.0] + TickRun(6.0, 3.0, limit);
    TickRunShape(0.0, 3.0, limit);
  }

  lemma Steps25()
    ensures PyStep(25.0) == 2 && CStep(25.0) == 3.0
  {
    assert RoundHalfEven(2.5) == 2;
  }

  /** The C layout for a positive max_v: the run cut at max_ticks, closed
      with max_v while there is room. */
  lemma CTicksOfCut(maxV: real, maxTicks: int, cut: seq<real>)
    requires maxV > 0.0 && maxTicks >= 2
    requires var run := TickRun(0.0, CStep(maxV), maxV + 0.000000001);
      cut == if |run| <= maxTicks then run else run[..maxTicks]
    ensures 1 <= |cut| <= maxTicks
    ensures CTicks(maxV, maxTicks) == if |cut| < maxTicks then EndAt(cut, maxV) else cut
  {
    TickRunShape(0.0, CStep(maxV), maxV + 0.000000001);
  }

  /** The tick loop of build_integer_axis_ticks: the run from 0 written
      into ticks, at most maxTicks of it. */
  method FillRun(ticks: array<real>, step: real, limit: real, maxTicks: int) returns (n: int)
    requires step >= 1.0 && 0 <= maxTicks <= ticks.Length
    modifies ticks
    ensures var run := TickRun(0.0, step, limit);
      0 <= n <= maxTicks && ticks[..n] == if |run| <= maxTicks then run else run[..maxTicks]
    ensures forall k :: n <= k < ticks.Length ==> ticks[k] == old(ticks[k])
  {
    ghost var run := TickRun(0.0, step, limit);
    var xv := 0.0;
    n := 0;
    while xv <= limit && n < maxTicks
      invariant 0 <= n <= maxTicks
      invariant n <= |run| && ticks[..n] == run[..n]
      invariant run[n..] == TickRun(xv, step, limit)
      invariant forall k :: n <= k < ticks.Length ==> ticks[k] == old(ticks[k])
    {
      assert run[n..] == [xv] + TickRun(xv + step, step, limit);
      assert run[n] == xv && run[n + 1..] == run[n..][1..];
      ticks[n] := xv;
      n := n + 1;
      xv := xv + step;
    }
    assert n == maxTicks || run[n..] == [];
  }

  /** build_integer_axis_ticks: writes the ticks into ticks[0..n) and
      returns n; nothing past n changes. */
  method BuildIntegerAxisTicks(maxV: real, ticks: array<real>, maxTicks: int) returns (n: int)
    requires maxTicks <= ticks.Length
    modifies ticks
    ensures n == |CTicks(maxV, maxTicks)| && 0 <= n <= ticks.Length
    ensures ticks[..n] == CTicks(maxV, maxTicks)
    ensures forall k :: n <= k < ticks.Length ==> ticks[k] == old(ticks[k])
  {
    if maxTicks < 2 {
      return 0;
    }
    if maxV <= 0.0 {
      ticks[0] := 0.0;
      ticks[1] := 1.0;
      assert ticks[..2] == [0.0, 1.0];
      return 2;
    }
    var step := RoundHalfUp(maxV / 10.0) as real;
    if step < 1.0 {
      step := 1.0;
    }
    assert step == CStep(maxV);
    n := FillRun(ticks, step, maxV + 0.000000001, maxTicks);
    ghost var cut := ticks[..n];
    CTicksOfCut(maxV, maxTicks, cut);
    // The C fallback for an empty run (n < 1) cannot fire: 0 <= max_v + 1e-9.
    if n < maxTicks && Curves.Abs(ticks[n - 1] - maxV) > 0.000000001 {
      ticks[n] := maxV;
      n := n + 1;
      assert ticks[..n] == cut + [maxV];
    }
  }

  /** _build_integer_ticks: builds the list with its own while loop. */
  method BuildIntegerTicks(maxV: real) returns (ticks: seq<real>)
    ensures ticks == PyTicks(maxV)
  {
    if maxV <= 0.0 {
      return [0.0, 1.0];
    }
    ticks := Multiples(PyStep(maxV), maxV + 0.000000001);
    if ticks == [] {
      ticks := [0.0];
    }
    if Curves.Abs(ticks[|ticks| - 1] - maxV) > 0.000000001 {
      ticks := ticks + [maxV];
    }
  }

  /** The while loop of _build_integer_ticks: the multiples of step up
      to limit. */
  method Multiples(step: int, limit: real) returns (ticks: seq<real>)
    requires step >= 1
    ensures ticks == TickRun(0.0, step as real, limit)
  {
    ticks := [];
    var value := 0;
    while value as real <= limit
      invariant ticks + TickRun(value as real, step as real, limit) == TickRun(0.0, step as real, limit)
      decreases limit.Floor + 1 - value
    {
      var rest := TickRun((value + step) as real, step as real, limit);
      assert TickRun(value as real, step as real, limit) == [value as real] + rest;
      assert ticks + ([value as real] + rest) == (ticks + [value as real]) + rest;
      ticks := ticks + [value as real];
      value := value + step;
    }
    assert ticks + [] == ticks;
  }

  // ---------------------------------------------------------------------
  // The C sigmoid graph's x-axis

  /** write_sigmoid_graph_png labels eleven evenly spaced times d*a/10 rather
      than integer ticks. */
  function SigmoidGraphXTicks(d: real): (ts: seq<real>)
    ensures |ts| == 11 && ts[0] == 0.0 && ts[10] == d
    ensures forall a :: 0 <= a < 10 ==> ts[a + 1] - ts[a] == d / 10.0
  {
    seq(11, a => d * a as real / 10.0)
  }

  /** ... placed at pixel column ml + (pw-1)*a/10, inside the plot area. */
  function SigmoidGraphTickColumn(ml: int, pw: int, a: int): (gx: int)
    requires pw >= 1 && 0 <= a <= 10
    ensures ml <= gx <= ml + pw - 1
    ensures a == 0 ==> gx == ml
    ensures a == 10 ==> gx == ml + pw - 1
  {
    ml + CDiv((pw - 1) * a, 10)
  }

  /** For a 25-minute drop the two programs label different times. */
  lemma SigmoidXTicksDifferFromScript()
    ensures SigmoidGraphXTicks(25.0)[1] == 2.5 && PyTicks(25.0)[1] == 2.0
  {
    TickStepsDivergeAt25();
  }

  // ---------------------------------------------------------------------
  // Padded y-range and whole-number y-ticks (render_sigmoid, render_drop)

  function Min(a: real, b: real): real {
    if a <= b then a else b
  }

  function Max(a: real, b: real): real {
    if a >= b then a else b
  }

  /** The smallest element, folded from the front as the script's loop does. */
  function MinOf(s: seq<real>): (m: real)
    requires |s| > 0
    ensures forall i :: 0 <= i < |s| ==> m <= s[i]
    ensures exists i :: 0 <= i < |s| && m == s[i]
  {
    if |s| == 1 then s[0]
    else
      var m := Min(MinOf(s[..|s| - 1]), s[|s| - 1]);
      assert forall i :: 0 <= i < |s| - 1 ==> s[..|s| - 1][i] == s[i];
      m
  }

  function MaxOf(s: seq<real>): (m: real)
    requires |s| > 0
    ensures forall i :: 0 <= i < |s| ==> s[i] <= m
    ensures exists i :: 0 <= i < |s| && m == s[i]
  {
    if |s| == 1 then s[0]
    else
      var m := Max(MaxOf(s[..|s| - 1]), s[|s| - 1]);
      assert forall i :: 0 <= i < |s| - 1 ==> s[..|s| - 1][i] == s[i];
      m
  }

  /** The time of sample i of the 2001 the script takes across a d-minute drop. */
  function SampleTime(d: real, i: int): real {
    d * i as real / 2000.0
  }

  function Samples(d: real, curve: real -> real): (s: seq<real>)
    ensures |s| == 2001
    ensures forall i :: 0 <= i < 2001 ==> s[i] == curve(SampleTime(d, i))
  {
    seq(2001, i => curve(SampleTime(d, i)))
  }

  /** A flat range is widened to +-1, then padded by 8% of its span and at
      least 0.1 on each side. */
  function PadRange(lo: real, hi: real): (real, real) {
    var flat := Curves.Abs(hi - lo) < 0.000001;
    var l := if flat then lo - 1.0 else lo;
    var h := if flat then hi + 1.0 else hi;
    var pad := Max((h - l) * 0.08, 0.1);
    (l - pad, h + pad)
  }

  /** The padding is at least 0.1 and 8% of the span on each side, and a
      flat range is first widened by 1 each way. */
  lemma PadRangeBounds(lo: real, hi: real)
    requires lo <= hi
    ensures var r := PadRange(lo, hi);
      r.0 <= lo - 0.1 && hi + 0.1 <= r.1 &&
      r.1 - r.0 >= 1.16 * (hi - lo) &&
      (hi - lo < 0.000001 ==> r.0 < lo - 1.0 && hi + 1.0 < r.1)
  {
  }

  /** y_tick_step: max(1.0, round(y_span / 8)). */
  function YTickStep(span: real): (s: real)
    ensures s >= 1.0 && s.Floor as real == s
    ensures span >= 12.0 ==> s >= span / 8.0 - 0.5
  {
    Max(1.0, RoundHalfEven(span / 8.0) as real)
  }

  function Ceil(x: real): (c: int)
    ensures x <= c as real < x + 1.0
  {
    -((-x).Floor)
  }

  /** y_tick_first: the first multiple of the step at or above y_min - 1e-9. */
  function FirstYTick(yMin: real, step: real): real
    requires step >= 1.0
  {
    Ceil((yMin - 0.000000001) / step) as real * step
  }

  /** c s brackets x from above by less than s when c is the ceiling of x / s. */
  lemma CeilMultipleBracket(x: real, step: real, q: real, c: real)
    requires step > 0.0 && q == x / step && q <= c < q + 1.0
    ensures x <= c * step < x + step
  {
    assert q * step == x;
    var e := c - q;
    assert c * step == x + e * step;
    if e > 0.0 {
      Curves.MulPos(e, step);
    }
    Curves.MulPos(1.0 - e, step);
  }

  /** The first y-tick is the lowest multiple of the step at or above
      y_min - 1e-9. */
  lemma FirstYTickIsLowestMultiple(yMin: real, step: real)
    requires step >= 1.0
    ensures var f := FirstYTick(yMin, step);
      yMin - 0.000000001 <= f < yMin - 0.000000001 + step &&
      (f / step).Floor as real == f / step
  {
    var x := yMin - 0.000000001;
    var c := Ceil(x / step) as real;
    CeilMultipleBracket(x, step, x / step, c);
    assert FirstYTick(yMin, step) == c * step;
    Curves.DivCancel(c, step);
    assert (c * step) / step == c;
    assert c.Floor as real == c;
  }

  /** The y-ticks start at the first multiple of the step and climb by the
      step while within a quarter step above y_max. */
  lemma YTicksShape(yMin: real, yMax: real, step: real)
    requires step >= 1.0
    ensures var t := TickRun(FirstYTick(yMin, step), step, yMax + step * 0.25);
      (forall i :: 0 <= i < |t| ==> yMin - 0.000000001 <= t[i] <= yMax + step * 0.25) &&
      (forall i :: 0 <= i < |t| - 1 ==> t[i + 1] == t[i] + step) &&
      (|t| > 0 ==> yMax + step * 0.25 < t[|t| - 1] + step)
  {
    var f := FirstYTick(yMin, step);
    var limit := yMax + step * 0.25;
    FirstYTickIsLowestMultiple(yMin, step);
    TickRunShape(f, step, limit);
    var t := TickRun(f, step, limit);
    if |t| > 0 {
      forall i | 0 <= i < |t|
        ensures yMin - 0.000000001 <= t[i]
      {
        TickRunAbove(f, step, limit, i);
      }
    }
  }

  /** Every entry of a run is at least its first value. */
  lemma {:induction false} TickRunAbove(v: real, step: real, limit: real, i: int)
    requires step >= 1.0
    requires 0 <= i < |TickRun(v, step, limit)|
    ensures TickRun(v, step, limit)[i] >= v
    decreases i
  {
    if i > 0 {
      TickRunAbove(v + step, step, limit, i - 1);
    }
  }

  /** The script's sampling loop: the least and greatest of the 2001 samples. */
  method SampleExtent(d: real, curve: real -> real) returns (lo: real, hi: real)
    ensures lo == MinOf(Samples(d, curve)) && hi == MaxOf(Samples(d, curve))
  {
    ghost var samples := Samples(d, curve);
    // min(inf, y0) and max(-inf, y0) are y0.
    lo := curve(SampleTime(d, 0));
    hi := lo;
    assert samples[..1] == [lo];
    var i := 1;
    while i < 2001
      invariant 1 <= i <= 2001
      invariant lo == MinOf(samples[..i]) && hi == MaxOf(samples[..i])
    {
      var y := curve(SampleTime(d, i));
      assert samples[..i + 1][..i] == samples[..i];
      lo := Min(lo, y);
      hi := Max(hi, y);
      i := i + 1;
    }
    assert samples[..2001] == samples;
  }

  /** The script's y-tick step and loop from y_tick_first up to a quarter
      step above y_max. */
  method YTicks(yMin: real, yMax: real) returns (yTicks: seq<real>)
    ensures yTicks == TickRun(FirstYTick(yMin, YTickStep(yMax - yMin)), YTickStep(yMax - yMin),
                              yMax + YTickStep(yMax - yMin) * 0.25)
  {
    var ySpan := yMax - yMin;
    var step := Max(1.0, RoundHalfEven(ySpan / 8.0) as real);
    var yv := Ceil((yMin - 0.000000001) / step) as real * step;
    var limit := yMax + step * 0.25;
    assert step == YTickStep(ySpan) && yv == FirstYTick(yMin, step);
    yTicks := [];
    while yv <= limit
      invariant yTicks + TickRun(yv, step, limit) == TickRun(FirstYTick(yMin, step), step, limit)
      decreases limit.Floor - yv.Floor + 1
    {
      yTicks := yTicks + [yv];
      yv := yv + step;
    }
  }

  /** The padded range strictly contains every sample and both beat frequencies. */
  lemma PadRangeContains(s: seq<real>, beatStart: real, beatTarget: real)
    requires |s| > 0
    ensures var r := PadRange(Min(Min(MinOf(s), beatStart), beatTarget),
                              Max(Max(MaxOf(s), beatStart), beatTarget));
      (forall i :: 0 <= i < |s| ==> r.0 < s[i] < r.1) &&
      r.0 < beatStart < r.1 && r.0 < beatTarget < r.1
  {
    PadRangeBounds(Min(Min(MinOf(s), beatStart), beatTarget), Max(Max(MaxOf(s), beatStart), beatTarget));
  }

  /** render_sigmoid / render_drop: the y-range of 2001 samples of the curve
      and both beat frequencies, padded, with its whole-number ticks. The
      curve is _sigmoid_eval or _drop_eval with the drop's parameters. */
  method PlotYAxis(d: real, curve: real -> real, beatStart: real, beatTarget: real)
    returns (yMin: real, yMax: real, yTicks: seq<real>)
    ensures (yMin, yMax) == PadRange(
      Min(Min(MinOf(Samples(d, curve)), beatStart), beatTarget),
      Max(Max(MaxOf(Samples(d, curve)), beatStart), beatTarget))
    ensures yTicks == TickRun(FirstYTick(yMin, YTickStep(yMax - yMin)), YTickStep(yMax - yMin),
                              yMax + YTickStep(yMax - yMin) * 0.25)
  {
    var lo, hi := SampleExtent(d, curve);
    lo := Min(Min(lo, beatStart), beatTarget);
    hi := Max(Max(hi, beatStart), beatTarget);
    yMin, yMax := lo, hi;
    if Curves.Abs(yMax - yMin) < 0.000001 {
      yMin := yMin - 1.0;
      yMax := yMax + 1.0;
    }
    var yPad := Max((yMax - yMin) * 0.08, 0.1);
    yMin := yMin - yPad;
    yMax := yMax + yPad;
    assert yMin == PadRange(lo, hi).0 && yMax == PadRange(lo, hi).1;
    yTicks := YTicks(yMin, yMax);
  }
}
