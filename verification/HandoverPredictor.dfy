/** Warning of a dropout from one interface's signal: a sliding window of samples, the fitted trend,
    and a hint with hysteresis.  Signal values and times are exact reals. */
module HandoverPrediction {
  import opened Prelude
  import opened LeastSquares

  datatype Config = Config(
    threshold: real, window: real, levelWindow: real, horizon: real,
    minSlope: real, minConfidence: real, clearMargin: real, minSamples: int)

  /** A configuration with which update() never divides by zero. */
  predicate Usable(c: Config) {
    c.minSamples >= 1 && c.levelWindow >= 0.0 && c.minSlope < 0.0
  }

  datatype Hint = Hint(eta: real, level: real, slope: real, confidence: real)

  datatype PredictorVal = PredictorVal(samples: seq<Sample>, active: Option<Hint>)

  /** Samples that left the window go, from the left. */
  function Trim(s: seq<Sample>, t: real, window: real): seq<Sample> {
    if s != [] && t - s[0].t > window then Trim(s[1..], t, window) else s
  }

  /** The samples no older than age. */
  function Within(s: seq<Sample>, t: real, age: real): seq<Sample> {
    if s == [] then []
    else
      var front, last := Within(s[..|s| - 1], t, age), s[|s| - 1];
      if t - last.t <= age then front + [last] else front
  }

  /** The mean of the samples in the level window; on the way down it is late by half that window, which is
      made up for. */
  function Level(c: Config, s: seq<Sample>, t: real, slope: real): real
    requires Within(s, t, c.levelWindow) != []
  {
    var mean := MeanY(Within(s, t, c.levelWindow));
    if slope < 0.0 then mean + slope * c.levelWindow / 2.0 else mean
  }

  /** The hint after an update; where the division by the slope fails, what is left of the earlier one. */
  function Judge(c: Config, active: Option<Hint>, level: real, f: Line): Option<Hint> {
    var kept := if active.Some? && level > c.threshold + c.clearMargin && f.slope >= 0.0 then None else active;
    if level <= c.threshold then Some(Hint(0.0, level, f.slope, f.r2))
    else if f.slope <= c.minSlope && f.r2 >= c.minConfidence then
      if f.slope == 0.0 then kept
      else
        var eta := (c.threshold - level) / f.slope;
        if eta <= c.horizon then Some(Hint(eta, level, f.slope, f.r2)) else kept
    else if kept.Some? then Some(Hint(kept.value.eta, level, f.slope, f.r2))
    else None
  }

  function Deque(c: Config, v: PredictorVal, t: real, dbm: real): seq<Sample> {
    Trim(v.samples + [Sample(t, dbm)], t, c.window)
  }

  /** Whether there is anything to fit and to average. */
  predicate Judges(c: Config, s: seq<Sample>, t: real) {
    |s| >= c.minSamples && s != [] && Within(s, t, c.levelWindow) != []
  }

  function AfterUpdate(c: Config, v: PredictorVal, t: real, dbm: real): PredictorVal {
    var s := Deque(c, v, t, dbm);
    if !Judges(c, s, t) then PredictorVal(s, v.active)
    else
      var f := Fit(s);
      PredictorVal(s, Judge(c, v.active, Level(c, s, t, f.slope), f))
  }

  /** The time to the crossing is asked of a level trend. */
  predicate FlatFade(c: Config, level: real, f: Line) {
    level > c.threshold && f.slope <= c.minSlope && f.r2 >= c.minConfidence && f.slope == 0.0
  }

  /** An update divides by zero: no samples at all, none in the level window, or no trend. */
  predicate Raises(c: Config, v: PredictorVal, t: real, dbm: real) {
    var s := Deque(c, v, t, dbm);
    |s| >= c.minSamples && (!Judges(c, s, t) || FlatFade(c, Level(c, s, t, Fit(s).slope), Fit(s)))
  }

  lemma UsableNeverRaises(c: Config, v: PredictorVal, t: real, dbm: real)
    requires Usable(c)
    ensures !Raises(c, v, t, dbm)
    ensures |Deque(c, v, t, dbm)| >= c.minSamples ==> Judges(c, Deque(c, v, t, dbm), t)
  {
    NewestIsRecent(v.samples, t, dbm, c.window, c.levelWindow);
    hide Fit, Level, Within;
  }

  /** Unless the window is negative and swallows everything, the newest sample survives, so there is
      always something to average. */
  lemma NewestIsRecent(s: seq<Sample>, t: real, dbm: real, window: real, age: real)
    requires age >= 0.0
    ensures var kept := Trim(s + [Sample(t, dbm)], t, window);
            kept != [] ==> kept[|kept| - 1] == Sample(t, dbm) && Within(kept, t, age) != []
  {
    TrimIsSuffix(s + [Sample(t, dbm)], t, window);
  }

  lemma {:induction false} TrimIsSuffix(s: seq<Sample>, t: real, window: real)
    ensures |Trim(s, t, window)| <= |s| && Trim(s, t, window) == s[|s| - |Trim(s, t, window)|..]
  {
    if s != [] && t - s[0].t > window {
      TrimIsSuffix(s[1..], t, window);
    }
  }

  class HandoverPredictor {
    const config: Config
    var samples: seq<Sample>
    var active: Option<Hint>

    ghost function Value(): PredictorVal
      reads this
    {
      PredictorVal(samples, active)
    }

    constructor (config: Config)
      ensures this.config == config && Value() == PredictorVal([], None)
    {
      this.config := config;
      samples, active := [], None;
    }

    /** Feeds one sample and returns the current hint, unless a division by zero comes between. */
    method Update(t: real, dbm: real) returns (r: Option<Hint>, raised: bool)
      modifies this
      ensures Value() == AfterUpdate(config, old(Value()), t, dbm)
      ensures raised == Raises(config, old(Value()), t, dbm) && (!raised ==> r == active)
    {
      hide Fit, Judge, Within, MeanY, FlatFade;
      r, raised := None, false;
      samples := samples + [Sample(t, dbm)];
      while samples != [] && t - samples[0].t > config.window
        invariant Trim(samples, t, config.window) == Deque(config, old(Value()), t, dbm)
        invariant active == old(active)
        decreases |samples|
      {
        samples := samples[1..];
      }
      assert samples == Deque(config, old(Value()), t, dbm);
      if |samples| < config.minSamples {
        return active, false;
      }
      if samples == [] {
        return None, true;
      }
      var f := Fit(samples);
      var mean := SmoothedLevel(t);
      if mean.None? {
        return None, true;
      }
      var level := mean.value;
      if f.slope < 0.0 {
        level := level + f.slope * config.levelWindow / 2.0;
      }
      assert level == Level(config, samples, t, f.slope);
      raised := Decide(level, f);
      r := active;
    }

    /** Raises, refreshes or clears the hint. */
    method Decide(level: real, f: Line) returns (raised: bool)
      modifies this`active
      ensures active == Judge(config, old(active), level, f) && raised == FlatFade(config, level, f)
    {
      raised := false;
      if active.Some? && level > config.threshold + config.clearMargin && f.slope >= 0.0 {
        active := None;
      }
      if level <= config.threshold {
        active := Some(Hint(0.0, level, f.slope, f.r2));
      } else if f.slope <= config.minSlope && f.r2 >= config.minConfidence {
        if f.slope == 0.0 {
          return true;
        }
        var eta := (config.threshold - level) / f.slope;
        if eta <= config.horizon {
          active := Some(Hint(eta, level, f.slope, f.r2));
        }
      } else if active.Some? {
        active := Some(Hint(active.value.eta, level, f.slope, f.r2));
      }
    }

    /** None: nothing to average. */
    method SmoothedLevel(t: real) returns (mean: Option<real>)
      ensures var recent := Within(samples, t, config.levelWindow);
              mean == if recent == [] then None else Some(MeanY(recent))
    {
      var recent: seq<Sample> := [];
      var sum := 0.0;
      for i := 0 to |samples|
        invariant recent == Within(samples[..i], t, config.levelWindow)
        invariant sum == SumY(recent)
      {
        assert samples[..i + 1][..i] == samples[..i];
        if t - samples[i].t <= config.levelWindow {
          recent := recent + [samples[i]];
          assert recent[..|recent| - 1] == Within(samples[..i], t, config.levelWindow);
          sum := sum + samples[i].y;
        }
      }
      assert samples[..|samples|] == samples;
      mean := if recent == [] then None else Some(sum / (|recent| as real));
    }
  }

  // ------------------------------------------------------------------------------------------ runs

  function Run(c: Config, history: seq<Sample>): PredictorVal {
    if history == [] then PredictorVal([], None)
    else
      var last := history[|history| - 1];
      AfterUpdate(c, Run(c, history[..|history| - 1]), last.t, last.y)
  }

  ghost predicate Ordered(s: seq<Sample>) {
    forall i, j :: 0 <= i <= j < |s| ==> s[i].t <= s[j].t
  }

  lemma {:induction false} WithinAll(s: seq<Sample>, t: real, age: real)
    requires forall i :: 0 <= i < |s| ==> t - s[i].t <= age
    ensures Within(s, t, age) == s
  {
    if s != [] {
      WithinAll(s[..|s| - 1], t, age);
    }
  }

  lemma {:induction false} WithinAppend(a: seq<Sample>, b: seq<Sample>, t: real, age: real)
    ensures Within(a + b, t, age) == Within(a, t, age) + Within(b, t, age)
  {
    if b == [] {
      assert a + b == a;
    } else {
      WithinAppend(a, b[..|b| - 1], t, age);
      assert (a + b)[..|a + b| - 1] == a + b[..|b| - 1];
    }
  }

  /** In time order, popping from the left is the same as keeping what is young enough. */
  lemma {:induction false} TrimIsWithin(s: seq<Sample>, t: real, window: real)
    requires Ordered(s)
    ensures Trim(s, t, window) == Within(s, t, window)
  {
    if s != [] {
      assert s == [s[0]] + s[1..];
      WithinAppend([s[0]], s[1..], t, window);
      assert [s[0]][..0] == [];
      if t - s[0].t > window {
        TrimIsWithin(s[1..], t, window);
      } else {
        WithinAll(s, t, window);
      }
    }
  }

  /** What has left the window never comes back. */
  lemma {:induction false} WithinTwice(s: seq<Sample>, earlier: real, later: real, age: real)
    requires earlier <= later
    ensures Within(Within(s, earlier, age), later, age) == Within(s, later, age)
  {
    if s != [] {
      var front, last := s[..|s| - 1], s[|s| - 1];
      WithinTwice(front, earlier, later, age);
      WithinAppend(Within(front, earlier, age), [last], later, age);
      assert [last][..0] == [];
    }
  }

  lemma AppendOrdered(front: seq<Sample>, s: seq<Sample>, last: Sample)
    requires Ordered(s) && (forall i :: 0 <= i < |front| ==> front[i].t <= last.t)
    requires forall x <- s :: x in front
    ensures Ordered(s + [last])
  {
    forall i | 0 <= i < |s| ensures s[i].t <= last.t {
      assert s[i] in front;
    }
  }

  lemma {:induction false} WithinSubset(s: seq<Sample>, t: real, age: real)
    ensures forall x <- Within(s, t, age) :: x in s
  {
    if s != [] {
      WithinSubset(s[..|s| - 1], t, age);
    }
  }

  lemma {:induction false} WithinOrdered(s: seq<Sample>, t: real, age: real)
    requires Ordered(s)
    ensures Ordered(Within(s, t, age))
    ensures forall x <- Within(s, t, age) :: x in s
  {
    WithinSubset(s, t, age);
    if s != [] {
      var front, last := s[..|s| - 1], s[|s| - 1];
      assert forall i :: 0 <= i < |front| ==> front[i] == s[i] && front[i].t <= last.t;
      WithinOrdered(front, t, age);
      AppendOrdered(front, Within(front, t, age), last);
    }
  }

  /** The deque refines the whole history: with times that never go back, it is exactly the samples of the
      last window_s seconds, in order. */
  lemma {:induction false} DequeIsTheWindow(c: Config, history: seq<Sample>)
    requires Ordered(history) && history != []
    ensures Run(c, history).samples == Within(history, history[|history| - 1].t, c.window)
  {
    var front, last := history[..|history| - 1], history[|history| - 1];
    LastUpdate(c, history);
    hide AfterUpdate, Deque, Within;
    if front != [] {
      DequeIsTheWindow(c, front);
      assert Run(c, front).samples == Within(front, front[|front| - 1].t, c.window);
      WindowStep(front, last, front[|front| - 1].t, c.window);
    } else {
      WindowStep(front, last, last.t, c.window);
      EmptyWindow(last.t, c.window);
    }
    assert front + [last] == history;
    assert Sample(last.t, last.y) == last;
  }

  lemma EmptyWindow(t: real, window: real)
    ensures Within([], t, window) == []
  {}

  lemma LastUpdate(c: Config, history: seq<Sample>)
    requires history != []
    ensures var front, last := history[..|history| - 1], history[|history| - 1];
            && Run(c, history) == AfterUpdate(c, Run(c, front), last.t, last.y)
            && Run(c, history).samples == Trim(Run(c, front).samples + [Sample(last.t, last.y)], last.t, c.window)
            && Run(c, history).samples == Deque(c, Run(c, front), last.t, last.y)
  {
    hide Fit, Judge, Level;
  }

  /** One more sample: trimming the window of the past gives the window of the present. */
  lemma WindowStep(front: seq<Sample>, last: Sample, t: real, window: real)
    requires Ordered(front + [last]) && t == if front == [] then last.t else front[|front| - 1].t
    ensures Trim(Within(front, t, window) + [last], last.t, window) == Within(front + [last], last.t, window)
  {
    var s := Within(front, t, window);
    assert Ordered(front) by {
      assert forall i :: 0 <= i < |front| ==> front[i] == (front + [last])[i];
    }
    WithinOrdered(front, t, window);
    assert forall i :: 0 <= i < |front| ==> front[i].t <= last.t by {
      assert (front + [last])[|front|] == last;
      assert forall i :: 0 <= i < |front| ==> front[i] == (front + [last])[i];
    }
    AppendOrdered(front, s, last);
    hide Within, Ordered;
    TrimIsWithin(s + [last], last.t, window);
    WithinAppend(s, [last], last.t, window);
    assert t <= last.t;
    WithinTwice(front, t, last.t, window);
    WithinAppend(front, [last], last.t, window);
  }

  /** In every reachable state, whatever the samples: the predicted time is between now and the horizon,
      and the confidence between 0 and 1. */
  lemma {:induction false} HintAlwaysInRange(c: Config, history: seq<Sample>)
    requires Usable(c) && c.horizon >= 0.0
    ensures var a := Run(c, history).active;
            a.Some? ==> 0.0 <= a.value.eta <= c.horizon && 0.0 <= a.value.confidence <= 1.0
  {
    if history != [] {
      var front, last := history[..|history| - 1], history[|history| - 1];
      HintAlwaysInRange(c, front);
      var v := Run(c, front);
      var s := Deque(c, v, last.t, last.y);
      if |s| >= c.minSamples {
        NewestIsRecent(v.samples, last.t, last.y, c.window, c.levelWindow);
        ConfidenceInRange(s);
        JudgeInRange(c, v.active, Level(c, s, last.t, Fit(s).slope), Fit(s));
      }
    }
  }

  lemma JudgeInRange(c: Config, active: Option<Hint>, level: real, f: Line)
    requires c.minSlope < 0.0 && c.horizon >= 0.0 && 0.0 <= f.r2 <= 1.0
    requires active.Some? ==> 0.0 <= active.value.eta <= c.horizon && 0.0 <= active.value.confidence <= 1.0
    ensures var a := Judge(c, active, level, f);
            a.Some? ==> 0.0 <= a.value.eta <= c.horizon && 0.0 <= a.value.confidence <= 1.0
  {
    if level > c.threshold && f.slope <= c.minSlope {
      NegativeQuotient(c.threshold - level, f.slope);
    }
  }

  lemma NegativeQuotient(x: real, y: real)
    requires x < 0.0 && y < 0.0
    ensures x / y > 0.0
  {
    var q := (-x) / (-y);
    QuotientPositive(-x, -y);
    assert q * (-y) == -x;
    assert q * y == -(q * (-y));
    DivideBack(q, y, x);
  }

  lemma QuotientPositive(x: real, y: real)
    requires x > 0.0 && y > 0.0
    ensures x / y > 0.0
  {
    QuotientSign(x, y);
  }

  lemma Signs(a: real, b: real)
    requires a >= 0.0 && b > 0.0
    ensures a * b >= 0.0
  {}

  /** Hysteresis, both ways: an update drops an active hint exactly when the level is back above threshold
      plus margin and the trend does not fall, and raises one exactly when the signal is unusable already
      or a confident fade crosses the threshold within the horizon. */
  lemma DroppedAndRaisedExactlyWhen(c: Config, v: PredictorVal, t: real, dbm: real)
    requires Usable(c) && c.clearMargin >= 0.0
    requires |Deque(c, v, t, dbm)| >= c.minSamples
    ensures Within(Deque(c, v, t, dbm), t, c.levelWindow) != []
    ensures var s := Deque(c, v, t, dbm);
            var f := Fit(s);
            var level := Level(c, s, t, f.slope);
            var after := AfterUpdate(c, v, t, dbm).active;
            && (v.active.Some? ==> (after.None? <==> level > c.threshold + c.clearMargin && f.slope >= 0.0))
            && (v.active.None? ==> (after.Some? <==>
                  level <= c.threshold
                  || (f.slope <= c.minSlope && f.r2 >= c.minConfidence
                      && (c.threshold - level) / f.slope <= c.horizon)))
  {
    NewestIsRecent(v.samples, t, dbm, c.window, c.levelWindow);
  }

  // -------------------------------------------------------------------------------- straight fades

  lemma {:induction false} WithinOnLine(s: seq<Sample>, t: real, age: real, slope: real, intercept: real)
    requires OnLine(s, slope, intercept)
    ensures OnLine(Within(s, t, age), slope, intercept)
  {
    if s != [] {
      WithinOnLine(s[..|s| - 1], t, age, slope, intercept);
    }
  }

  lemma {:induction false} SumOnLine(s: seq<Sample>, slope: real, intercept: real)
    requires OnLine(s, slope, intercept)
    ensures SumY(s) == slope * SumT(s) + intercept * |s| as real
  {
    if s != [] {
      var front, last := s[..|s| - 1], s[|s| - 1];
      SumOnLine(front, slope, intercept);
      var k := |front| as real;
      assert |s| as real == k + 1.0;
      assert intercept * (k + 1.0) == intercept * k + intercept;
      assert slope * (SumT(front) + last.t) == slope * SumT(front) + slope * last.t;
    }
  }

  lemma MeanOnLine(s: seq<Sample>, slope: real, intercept: real)
    requires OnLine(s, slope, intercept) && s != []
    ensures MeanY(s) == slope * MeanT(s) + intercept
  {
    SumOnLine(s, slope, intercept);
    DivideSum(slope, SumT(s), intercept, |s| as real);
  }

  lemma DivideSum(a: real, x: real, b: real, n: real)
    requires n > 0.0
    ensures (a * x + b * n) / n == a * (x / n) + b
  {
    var q := x / n;
    assert (a * q + b) * n == a * (q * n) + b * n;
    DivideBack(a * q + b, n, a * x + b * n);
  }

  /** On a straight fade the corrected level misses the line by the slope times the difference between half
      the level window and the mean age of the samples in it. */
  lemma LevelOnFade(c: Config, s: seq<Sample>, t: real, slope: real, intercept: real)
    requires slope < 0.0 && OnLine(s, slope, intercept) && Within(s, t, c.levelWindow) != []
    ensures Level(c, s, t, slope) ==
            (slope * t + intercept) + slope * (c.levelWindow / 2.0 - (t - MeanT(Within(s, t, c.levelWindow))))
  {
    var r := Within(s, t, c.levelWindow);
    WithinOnLine(s, t, c.levelWindow, slope, intercept);
    MeanOnLine(r, slope, intercept);
    var half, m := c.levelWindow / 2.0, MeanT(r);
    assert slope * (half - (t - m)) == slope * half - slope * t + slope * m;
  }

  /** So the correction is exact for the sampling pattern if and only if the mean age is half the window. */
  lemma LagCorrectionExactIff(c: Config, s: seq<Sample>, t: real, slope: real, intercept: real)
    requires slope < 0.0 && OnLine(s, slope, intercept) && Within(s, t, c.levelWindow) != []
    ensures Level(c, s, t, slope) == slope * t + intercept <==>
        t - MeanT(Within(s, t, c.levelWindow)) == c.levelWindow / 2.0
  {
    hide Level, OnLine;
    LevelOnFade(c, s, t, slope, intercept);
    hide Within, MeanT;
    var off := c.levelWindow / 2.0 - (t - MeanT(Within(s, t, c.levelWindow)));
    ZeroProduct(slope, off);
  }

  lemma ZeroProduct(a: real, b: real)
    requires a < 0.0
    ensures a * b == 0.0 <==> b == 0.0
  {
    if b > 0.0 {
      Signs(b, -a);
      assert b * (-a) == -(a * b);
    } else if b < 0.0 {
      Signs(-b, -a);
      assert (-b) * (-a) == a * b;
    }
  }

  ghost predicate Uniform(s: seq<Sample>, step: real) {
    step > 0.0 && forall i :: 0 <= i < |s| ==> s[i].t == s[0].t + i as real * step
  }

  lemma GridAge(s: seq<Sample>, step: real, i: nat)
    requires Uniform(s, step) && i < |s|
    ensures s[|s| - 1].t - s[i].t == (|s| - 1 - i) as real * step
  {
    var n := |s| - 1;
    assert n as real * step - i as real * step == (n - i) as real * step;
  }

  lemma GridTail(s: seq<Sample>, step: real, k: nat)
    requires Uniform(s, step) && k <= |s|
    ensures Uniform(s[k..], step)
  {
    forall i | 0 <= i < |s[k..]| ensures s[k..][i].t == s[k..][0].t + i as real * step {
      assert (k + i) as real * step == k as real * step + i as real * step;
    }
  }

  lemma Scale(a: nat, b: nat, step: real)
    requires step > 0.0
    ensures a as real * step <= b as real * step <==> a <= b
  {
    if a < b {
      Signs((b - a) as real, step);
      assert b as real * step - a as real * step == (b - a) as real * step;
    } else if a > b {
      MulPositive((a - b) as real, step);
      assert a as real * step - b as real * step == (a - b) as real * step;
    }
  }

  lemma YoungOnGrid(s: seq<Sample>, step: real, m: nat, i: nat)
    requires Uniform(s, step) && i < |s|
    ensures s[|s| - 1].t - s[i].t <= m as real * step <==> |s| - 1 - i <= m
  {
    GridAge(s, step, i);
    Scale(|s| - 1 - i, m, step);
  }

  /** On a grid whose step divides the level window, the window holds the last m + 1 samples. */
  lemma RecentOnGrid(s: seq<Sample>, step: real, m: nat)
    requires Uniform(s, step) && m < |s|
    ensures Within(s, s[|s| - 1].t, m as real * step) == s[|s| - 1 - m..]
  {
    var t, k, age := s[|s| - 1].t, |s| - 1 - m, m as real * step;
    forall i | 0 <= i < |s| ensures t - s[i].t <= age <==> i >= k {
      YoungOnGrid(s, step, m, i);
    }
    hide Within, Uniform;
    assert s == s[..k] + s[k..];
    WithinAppend(s[..k], s[k..], t, age);
    WithinNone(s[..k], t, age);
    WithinAll(s[k..], t, age);
  }

  lemma {:induction false} WithinNone(s: seq<Sample>, t: real, age: real)
    requires forall i :: 0 <= i < |s| ==> t - s[i].t > age
    ensures Within(s, t, age) == []
  {
    if s != [] {
      WithinNone(s[..|s| - 1], t, age);
    }
  }

  /** An evenly spaced run of samples has its mean in the middle. */
  lemma {:induction false} GridSum(s: seq<Sample>, step: real)
    requires Uniform(s, step) && s != []
    ensures 2.0 * SumT(s) == |s| as real * (s[0].t + s[|s| - 1].t)
  {
    if |s| == 1 {
      assert s[..0] == [];
      assert SumT(s) == s[0].t;
    } else {
      var front := s[..|s| - 1];
      var n := |front| as real;
      GridSum(front, step);
      var a, d := s[0].t, s[|s| - 1].t;
      GridAge(s, step, |s| - 2);
      assert s[|s| - 2].t == d - step;
      GridAge(s, step, 0);
      assert d - a == n * step;
      assert |s| as real == n + 1.0;
      GridAlgebra(n, a, d, step);
    }
  }

  lemma GridAlgebra(n: real, a: real, d: real, step: real)
    requires d - a == n * step
    ensures n * (a + (d - step)) + 2.0 * d == (n + 1.0) * (a + d)
  {
    assert n * (a + (d - step)) == n * (a + d) - n * step;
    assert (n + 1.0) * (a + d) == n * (a + d) + (a + d);
  }

  lemma GridMean(s: seq<Sample>, step: real, m: nat)
    requires Uniform(s, step) && |s| == m + 1
    ensures s[m].t - MeanT(s) == (m as real * step) / 2.0
  {
    GridSum(s, step);
    GridAge(s, step, 0);
    var n := |s| as real;
    HalfSum(SumT(s), n, s[0].t + s[m].t);
  }

  lemma HalfSum(sum: real, n: real, x: real)
    requires n > 0.0 && 2.0 * sum == n * x
    ensures sum / n == x / 2.0
  {
    assert (x / 2.0) * n == sum;
    DivideBack(x / 2.0, n, sum);
  }

  /** The hint for a line at time t: its value now, and the time left until it meets the threshold. */
  ghost predicate TellsTimeLeft(c: Config, slope: real, intercept: real, t: real, hint: Option<Hint>)
    requires slope < 0.0
  {
    var now := slope * t + intercept;
    var left := (c.threshold - now) / slope;
    && slope * (t + left) + intercept == c.threshold
    && (now <= c.threshold ==> hint == Some(Hint(0.0, now, slope, 1.0)))
    && (now > c.threshold && left <= c.horizon ==> hint == Some(Hint(left, now, slope, 1.0)))
  }

  /** On an exactly linear fade sampled on a uniform grid whose step divides the level window: the level is
      the line's own value, and the announced time is exactly the time left until the line meets the
      threshold (0 once it has). */
  lemma {:induction false} LinearFadeIsExact(c: Config, v: PredictorVal, t: real, dbm: real, slope: real,
                                             intercept: real, step: real, m: nat)
    requires Usable(c) && c.minConfidence <= 1.0 && slope <= c.minSlope && c.levelWindow == m as real * step
    requires var s := Deque(c, v, t, dbm);
             |s| >= c.minSamples && |s| > m && |s| >= 2 && Uniform(s, step) && OnLine(s, slope, intercept)
    ensures TellsTimeLeft(c, slope, intercept, t, AfterUpdate(c, v, t, dbm).active)
  {
    var s := Deque(c, v, t, dbm);
    NewestIsRecent(v.samples, t, dbm, c.window, c.levelWindow);
    FadeIsRead(c, s, t, slope, intercept, step, m);
    hide Fit, Level, Within, OnLine, Uniform, Deque, Judge, TellsTimeLeft;
    FadeIsAnnounced(c, v.active, slope * t + intercept, t, slope, intercept);
  }

  /** The fit finds the line and the level finds its current value. */
  lemma FadeIsRead(c: Config, s: seq<Sample>, t: real, slope: real, intercept: real, step: real, m: nat)
    requires slope < 0.0 && c.levelWindow == m as real * step
    requires |s| > m && |s| >= 2 && s[|s| - 1].t == t && Uniform(s, step) && OnLine(s, slope, intercept)
    requires Within(s, t, c.levelWindow) != []
    ensures Fit(s) == Line(slope, intercept, 1.0)
    ensures Level(c, s, t, slope) == slope * t + intercept
  {
    hide Fit, Level, Within, MeanT, OnLine;
    RecentOnGrid(s, step, m);
    GridTail(s, step, |s| - 1 - m);
    GridMean(s[|s| - 1 - m..], step, m);
    DifferentTimes(s, step);
    LineIsRecovered(s, slope, intercept);
    LagCorrectionExactIff(c, s, t, slope, intercept);
  }

  lemma DifferentTimes(s: seq<Sample>, step: real)
    requires Uniform(s, step) && |s| >= 2
    ensures !SameTimes(s)
  {
    GridAge(s, step, 0);
    MulPositive((|s| - 1) as real, step);
    assert s[0].t != s[|s| - 1].t;
  }

  lemma FadeIsAnnounced(c: Config, active: Option<Hint>, now: real, t: real, slope: real, intercept: real)
    requires slope <= c.minSlope < 0.0 && c.minConfidence <= 1.0 && now == slope * t + intercept
    ensures TellsTimeLeft(c, slope, intercept, t, Judge(c, active, now, Line(slope, intercept, 1.0)))
  {
    var left := (c.threshold - now) / slope;
    CrossesThen(c.threshold, now, t, slope, intercept, left);
  }

  lemma CrossesThen(threshold: real, now: real, t: real, slope: real, intercept: real, left: real)
    requires slope < 0.0 && now == slope * t + intercept && left == (threshold - now) / slope
    ensures slope * (t + left) + intercept == threshold
  {
    assert slope * left == threshold - now;
    assert slope * (t + left) == slope * t + slope * left;
  }

  /** The same about runs: whatever came before, once the samples of the last window_s seconds are a straight
      fade on such a grid, the hint tells the exact time left. */
  lemma FadeIsExactInEveryRun(c: Config, history: seq<Sample>, slope: real, intercept: real, step: real, m: nat)
    requires Usable(c) && c.minConfidence <= 1.0 && slope <= c.minSlope && c.levelWindow == m as real * step
    requires history != [] && Ordered(history)
    requires var w := Within(history, history[|history| - 1].t, c.window);
             |w| >= c.minSamples && |w| > m && |w| >= 2 && Uniform(w, step) && OnLine(w, slope, intercept)
    ensures TellsTimeLeft(c, slope, intercept, history[|history| - 1].t, Run(c, history).active)
  {
    var front, last := history[..|history| - 1], history[|history| - 1];
    LastUpdate(c, history);
    DequeIsTheWindow(c, history);
    hide Run, AfterUpdate, Trim, Within, Deque, OnLine, Uniform, Ordered, TellsTimeLeft;
    LinearFadeIsExact(c, Run(c, front), last.t, last.y, slope, intercept, step, m);
  }

  // ------------------------------------------------------------- the level, when the trend does not fall

  /** Every sample of the level window lies between these. */
  predicate Between(s: seq<Sample>, low: real, high: real) {
    forall i :: 0 <= i < |s| ==> low <= s[i].y <= high
  }

  lemma {:induction false} SumBetween(s: seq<Sample>, low: real, high: real)
    requires Between(s, low, high)
    ensures low * |s| as real <= SumY(s) <= high * |s| as real
  {
    if s != [] {
      var front := s[..|s| - 1];
      assert Between(front, low, high) by {
        assert forall i :: 0 <= i < |front| ==> front[i] == s[i];
      }
      SumBetween(front, low, high);
      var k := |front| as real;
      assert |s| as real == k + 1.0;
      assert low * (k + 1.0) == low * k + low && high * (k + 1.0) == high * k + high;
    }
  }

  lemma LargerProduct(a: real, b: real, n: real)
    requires a < b && n > 0.0
    ensures a * n < b * n
  {
    MulPositive(b - a, n);
    assert b * n - a * n == (b - a) * n;
  }

  lemma QuotientBetween(sum: real, n: real, low: real, high: real)
    requires n > 0.0 && low * n <= sum <= high * n
    ensures low <= sum / n <= high && (sum / n) * n == sum
  {
    var q := sum / n;
    assert q * n == sum;
    if q < low {
      LargerProduct(q, low, n);
    } else if q > high {
      LargerProduct(high, q, n);
    }
  }

  lemma MeanBetween(s: seq<Sample>, low: real, high: real)
    requires Between(s, low, high) && s != []
    ensures low <= MeanY(s) <= high && MeanY(s) * |s| as real == SumY(s)
  {
    SumBetween(s, low, high);
    hide SumY;
    QuotientBetween(SumY(s), |s| as real, low, high);
  }

  /** The lowest and the highest value of the level window. */
  ghost predicate Extremes(s: seq<Sample>, low: real, high: real) {
    && Between(s, low, high)
    && (exists x <- s :: x.y == low) && (exists x <- s :: x.y == high)
  }

  lemma {:induction false} ExtremesExist(s: seq<Sample>) returns (low: real, high: real)
    requires s != []
    ensures Extremes(s, low, high)
  {
    var front, last := s[..|s| - 1], s[|s| - 1];
    assert last in s && forall x <- front :: x in s;
    if front == [] {
      low, high := last.y, last.y;
    } else {
      var a, b := ExtremesExist(front);
      low, high := if last.y < a then last.y else a, if last.y > b then last.y else b;
      assert forall i :: 0 <= i < |front| ==> s[i] == front[i];
    }
  }

  lemma RisingHint(c: Config, v: PredictorVal, t: real, dbm: real)
    requires Usable(c) && |Deque(c, v, t, dbm)| >= c.minSamples && Fit(Deque(c, v, t, dbm)).slope >= 0.0
    requires AfterUpdate(c, v, t, dbm).active.Some?
    ensures var recent := Within(Deque(c, v, t, dbm), t, c.levelWindow);
            var hint := AfterUpdate(c, v, t, dbm).active.value;
            recent != [] && hint.level == MeanY(recent) && hint.slope == Fit(Deque(c, v, t, dbm)).slope
  {
    NewestIsRecent(v.samples, t, dbm, c.window, c.levelWindow);
    hide MeanY, Within, Fit, Trim;
  }

  /** Only the way down is corrected: while the trend does not fall, the level of the hint is the plain mean of
      the samples in the level window, and so lies between the lowest and the highest of them. */
  lemma RisingLevelIsTheMean(c: Config, v: PredictorVal, t: real, dbm: real)
    requires Usable(c) && |Deque(c, v, t, dbm)| >= c.minSamples && Fit(Deque(c, v, t, dbm)).slope >= 0.0
    requires AfterUpdate(c, v, t, dbm).active.Some?
    ensures var recent := Within(Deque(c, v, t, dbm), t, c.levelWindow);
            var hint := AfterUpdate(c, v, t, dbm).active.value;
            && hint.level * |recent| as real == SumY(recent)
            && (forall low, high :: Extremes(recent, low, high) ==> low <= hint.level <= high)
            && hint.slope == Fit(Deque(c, v, t, dbm)).slope
  {
    var recent := Within(Deque(c, v, t, dbm), t, c.levelWindow);
    RisingHint(c, v, t, dbm);
    hide Within, Fit, SumY, Deque, MeanY, AfterUpdate;
    var low, high := ExtremesExist(recent);
    MeanBetween(recent, low, high);
    forall low, high | Extremes(recent, low, high) ensures low <= MeanY(recent) <= high {
      MeanBetween(recent, low, high);
    }
  }

  /** A step up cannot clear the hint early, nor a dip be missed: an active hint is dropped only if a sample of the
      level window is above threshold and margin; if none of them is above the threshold there is a hint, for
      now; and if all of them are above it and the trend does not fall, none is raised. */
  lemma SamplesDecide(c: Config, v: PredictorVal, t: real, dbm: real)
    requires Usable(c) && c.clearMargin >= 0.0 && |Deque(c, v, t, dbm)| >= c.minSamples
    ensures var recent := Within(Deque(c, v, t, dbm), t, c.levelWindow);
            var slope, after := Fit(Deque(c, v, t, dbm)).slope, AfterUpdate(c, v, t, dbm).active;
            && (v.active.Some? && after.None? ==>
                  slope >= 0.0 && exists x <- recent :: x.y > c.threshold + c.clearMargin)
            && ((forall x <- recent :: x.y <= c.threshold) ==> after.Some? && after.value.eta == 0.0)
            && (v.active.None? && slope >= 0.0 && (forall x <- recent :: x.y > c.threshold) ==> after.None?)
            && (slope >= 0.0 && (forall x <- recent :: x.y > c.threshold + c.clearMargin) ==> after.None?)
  {
    hide Within, Fit, SumY, MeanY, Trim, Judge, Level;
    var s := Deque(c, v, t, dbm);
    NewestIsRecent(v.samples, t, dbm, c.window, c.levelWindow);
    var recent := Within(s, t, c.levelWindow);
    LevelUnderMean(c, s, t, Fit(s).slope);
    JudgeDecides(c, v.active, Level(c, s, t, Fit(s).slope), Fit(s));
    hide Deque;
    var low, high := ExtremesExist(recent);
    MeanBetween(recent, low, high);
  }

  lemma JudgeDecides(c: Config, active: Option<Hint>, level: real, f: Line)
    requires c.minSlope < 0.0
    ensures var after := Judge(c, active, level, f);
            && (active.Some? && after.None? ==> f.slope >= 0.0 && level > c.threshold + c.clearMargin)
            && (level <= c.threshold ==> after.Some? && after.value.eta == 0.0)
            && (active.None? && f.slope >= 0.0 && level > c.threshold ==> after.None?)
            && (f.slope >= 0.0 && level > c.threshold + c.clearMargin && level > c.threshold ==> after.None?)
  {}

  lemma LevelUnderMean(c: Config, s: seq<Sample>, t: real, slope: real)
    requires c.levelWindow >= 0.0 && Within(s, t, c.levelWindow) != []
    ensures var mean := MeanY(Within(s, t, c.levelWindow));
            Level(c, s, t, slope) <= mean && (slope >= 0.0 ==> Level(c, s, t, slope) == mean)
  {
    if slope < 0.0 && c.levelWindow > 0.0 {
      MulPositive(-slope, c.levelWindow);
      assert (-slope) * c.levelWindow == -(slope * c.levelWindow);
    }
  }

  /** Following the slope from the level for eta seconds, and not backwards, leads to the threshold. */
  predicate Meets(level: real, slope: real, eta: real, threshold: real) {
    eta >= 0.0 && level + slope * eta == threshold
  }

  /** What a hint means, in every case: a signal at or below the threshold is announced for now.  On a confident
      fade there is one time after which the trend leads exactly from the level to the threshold; it is announced
      if it is within the horizon, and otherwise the hint stays as it was.  Without one, a hint keeps its time,
      with the numbers of today, until hysteresis drops it. */
  lemma HintMeans(c: Config, v: PredictorVal, t: real, dbm: real)
    requires Usable(c) && c.clearMargin >= 0.0 && |Deque(c, v, t, dbm)| >= c.minSamples
    ensures Within(Deque(c, v, t, dbm), t, c.levelWindow) != []
    ensures var f := Fit(Deque(c, v, t, dbm));
            var level, after := Level(c, Deque(c, v, t, dbm), t, f.slope), AfterUpdate(c, v, t, dbm).active;
            var fades := f.slope <= c.minSlope && f.r2 >= c.minConfidence;
            && (level <= c.threshold ==> after == Some(Hint(0.0, level, f.slope, f.r2)))
            && (level > c.threshold && fades ==>
                  exists eta ::
                    && Meets(level, f.slope, eta, c.threshold)
                    && after == (if eta <= c.horizon then Some(Hint(eta, level, f.slope, f.r2)) else v.active))
            && (level > c.threshold && !fades ==>
                  after == (if v.active.None? || (level > c.threshold + c.clearMargin && f.slope >= 0.0) then None
                            else Some(Hint(v.active.value.eta, level, f.slope, f.r2))))
  {
    NewestIsRecent(v.samples, t, dbm, c.window, c.levelWindow);
    var s := Deque(c, v, t, dbm);
    var f := Fit(s);
    var level := Level(c, s, t, f.slope);
    hide Fit, Level, Within;
    if level > c.threshold && f.slope <= c.minSlope {
      var eta := (c.threshold - level) / f.slope;
      NegativeQuotient(c.threshold - level, f.slope);
      assert Meets(level, f.slope, eta, c.threshold);
    }
  }
}
