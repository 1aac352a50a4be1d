/** The handover predictor's straight-line fit, in exact real arithmetic. */
module LeastSquares {

  datatype Sample = Sample(t: real, y: real)

  datatype Line = Line(slope: real, intercept: real, r2: real)

  function SumT(s: seq<Sample>): real {
    if s == [] then 0.0 else SumT(s[..|s| - 1]) + s[|s| - 1].t
  }

  function SumY(s: seq<Sample>): real {
    if s == [] then 0.0 else SumY(s[..|s| - 1]) + s[|s| - 1].y
  }

  function Product(a: real, b: real): (r: real)
    ensures a > 0.0 && b > 0.0 ==> r > 0.0
    ensures a < 0.0 && b < 0.0 ==> r > 0.0
    ensures a == 0.0 || b == 0.0 ==> r == 0.0
  {
    assert (-a) * (-b) == a * b;
    a * b
  }

  function Square(x: real): (r: real)
    ensures r >= 0.0
    ensures r == 0.0 <==> x == 0.0
  {
    Product(x, x)
  }

  /** Squared deviations of the times, of the values, and their products. */
  function DevTT(s: seq<Sample>, mt: real): real {
    if s == [] then 0.0 else DevTT(s[..|s| - 1], mt) + Square(s[|s| - 1].t - mt)
  }

  function DevTY(s: seq<Sample>, mt: real, my: real): real {
    if s == [] then 0.0 else DevTY(s[..|s| - 1], mt, my) + (s[|s| - 1].t - mt) * (s[|s| - 1].y - my)
  }

  function DevYY(s: seq<Sample>, my: real): real {
    if s == [] then 0.0 else DevYY(s[..|s| - 1], my) + Square(s[|s| - 1].y - my)
  }

  function MeanT(s: seq<Sample>): real
    requires s != []
  {
    SumT(s) / (|s| as real)
  }

  function MeanY(s: seq<Sample>): real
    requires s != []
  {
    SumY(s) / (|s| as real)
  }

  function Fit(s: seq<Sample>): Line
    requires s != []
  {
    var mt, my := MeanT(s), MeanY(s);
    var sxx, sxy, syy := DevTT(s, mt), DevTY(s, mt, my), DevYY(s, my);
    if sxx == 0.0 then Line(0.0, my, 0.0)
    else
      var slope := sxy / sxx;
      Line(slope, my - slope * mt, if syy != 0.0 then Ratio(sxx, sxy, syy) else 1.0)
  }

  /** R squared. */
  function Ratio(sxx: real, sxy: real, syy: real): real
    requires sxx != 0.0 && syy != 0.0
  {
    NonZeroProduct(sxx, syy);
    (sxy * sxy) / (sxx * syy)
  }

  lemma NonZeroProduct(a: real, b: real)
    requires a != 0.0 && b != 0.0
    ensures a * b != 0.0
  {}

  /** What a line leaves unexplained: the sum of squared residuals. */
  function Residual(s: seq<Sample>, slope: real, intercept: real): real {
    if s == [] then 0.0
    else Residual(s[..|s| - 1], slope, intercept) + Square(Gap(s[|s| - 1], slope, intercept))
  }

  function Gap(x: Sample, slope: real, intercept: real): real { x.y - (slope * x.t + intercept) }

  ghost predicate OnLine(s: seq<Sample>, slope: real, intercept: real) {
    forall i :: 0 <= i < |s| ==> s[i].y == slope * s[i].t + intercept
  }

  ghost predicate SameTimes(s: seq<Sample>) {
    forall i, j :: 0 <= i < |s| && 0 <= j < |s| ==> s[i].t == s[j].t
  }

  // ------------------------------------------------------------------------------- signs and zeros

  lemma {:induction false} DeviationsNonNegative(s: seq<Sample>, mt: real, my: real)
    ensures DevTT(s, mt) >= 0.0 && DevYY(s, my) >= 0.0
  {
    if s != [] {
      DeviationsNonNegative(s[..|s| - 1], mt, my);
    }
  }

  lemma MulPositive(a: real, b: real)
    requires a > 0.0 && b > 0.0
    ensures a * b > 0.0
  {}

  lemma {:induction false} ResidualZero(s: seq<Sample>, slope: real, intercept: real)
    ensures Residual(s, slope, intercept) >= 0.0
    ensures Residual(s, slope, intercept) == 0.0 <==> OnLine(s, slope, intercept)
  {
    if s != [] {
      var front, last := s[..|s| - 1], s[|s| - 1];
      ResidualZero(front, slope, intercept);
      assert OnLine(s, slope, intercept) <==>
          OnLine(front, slope, intercept) && last.y == slope * last.t + intercept by {
        assert forall i :: 0 <= i < |front| ==> front[i] == s[i];
      }
    }
  }

  lemma {:induction false} DevTTZero(s: seq<Sample>, mt: real)
    ensures DevTT(s, mt) == 0.0 <==> forall i :: 0 <= i < |s| ==> s[i].t == mt
  {
    if s != [] {
      var front, last := s[..|s| - 1], s[|s| - 1];
      DevTTZero(front, mt);
      DeviationsNonNegative(front, mt, 0.0);
      assert forall i :: 0 <= i < |front| ==> front[i] == s[i];
    }
  }

  lemma {:induction false} SumOfEqualTimes(s: seq<Sample>, t: real)
    requires forall i :: 0 <= i < |s| ==> s[i].t == t
    ensures SumT(s) == |s| as real * t
  {
    if s != [] {
      SumOfEqualTimes(s[..|s| - 1], t);
      assert |s| as real * t == (|s| - 1) as real * t + t;
    }
  }

  /** The fit's guard: the time deviations vanish exactly when all samples have one time. */
  lemma GuardMeansSameTimes(s: seq<Sample>)
    requires s != []
    ensures DevTT(s, MeanT(s)) == 0.0 <==> SameTimes(s)
  {
    DevTTZero(s, MeanT(s));
    if SameTimes(s) {
      SumOfEqualTimes(s, s[0].t);
      MeanOfEqual(SumT(s), |s|, s[0].t);
    }
  }

  lemma MeanOfEqual(sum: real, n: nat, t: real)
    requires n > 0 && sum == n as real * t
    ensures sum / (n as real) == t
  {}

  // -------------------------------------------------------------------------------- the decomposition

  lemma SquareOfThree(p: real, a: real, q: real, d: real)
    ensures Square(p - a * q + d) ==
            Square(p) - 2.0 * a * (q * p) + a * a * Square(q) + Square(d) + 2.0 * d * p - 2.0 * a * d * q
  {
    var x := a * q;
    assert Square(p - x + d) == p * p + x * x + d * d - 2.0 * p * x + 2.0 * p * d - 2.0 * x * d;
    assert x * x == a * a * (q * q);
    assert p * x == a * (q * p);
    assert x * d == a * d * q;
  }

  /** Residuals in terms of deviations from a centre: yy, ty and tt are the deviation sums of n samples,
      ry and rt how far the centre is from their means, d how far the line is from the centre. */
  function Expansion(yy: real, ty: real, tt: real, n: real, ry: real, rt: real, a: real, d: real): real {
    yy - 2.0 * a * ty + a * a * tt + n * Square(d) + 2.0 * d * ry - 2.0 * a * d * rt
  }

  lemma ExpansionGrows(yy: real, ty: real, tt: real, n: real, ry: real, rt: real, a: real, d: real, p: real, q: real)
    ensures Expansion(yy, ty, tt, n, ry, rt, a, d) + Square(p - a * q + d) ==
            Expansion(yy + Square(p), ty + q * p, tt + Square(q), n + 1.0, ry + p, rt + q, a, d)
  {
    hide Square;
    SquareOfThree(p, a, q, d);
    assert 2.0 * a * (ty + q * p) == 2.0 * a * ty + 2.0 * a * (q * p);
    assert a * a * (tt + Square(q)) == a * a * tt + a * a * Square(q);
    assert (n + 1.0) * Square(d) == n * Square(d) + Square(d);
    assert 2.0 * d * (ry + p) == 2.0 * d * ry + 2.0 * d * p;
    assert 2.0 * a * d * (rt + q) == 2.0 * a * d * rt + 2.0 * a * d * q;
  }

  function OffT(s: seq<Sample>, mt: real): real { SumT(s) - |s| as real * mt }

  function OffY(s: seq<Sample>, my: real): real { SumY(s) - |s| as real * my }

  /** How far a line misses a centre. */
  function Miss(mt: real, my: real, a: real, b: real): real { my - a * mt - b }

  lemma OffGrows(s: seq<Sample>, mt: real, my: real)
    requires s != []
    ensures var front, last := s[..|s| - 1], s[|s| - 1];
            OffT(s, mt) == OffT(front, mt) + (last.t - mt) && OffY(s, my) == OffY(front, my) + (last.y - my)
  {
    var k := (|s| - 1) as real;
    assert |s| as real == k + 1.0;
    assert (k + 1.0) * my == k * my + my;
    assert (k + 1.0) * mt == k * mt + mt;
  }

  /** Residuals of any line, around any centre. */
  lemma {:induction false} Decompose(s: seq<Sample>, mt: real, my: real, a: real, b: real)
    ensures Residual(s, a, b) ==
            Expansion(DevYY(s, my), DevTY(s, mt, my), DevTT(s, mt), |s| as real, OffY(s, my), OffT(s, mt), a,
                      Miss(mt, my, a, b))
  {
    hide Expansion, OffT, OffY, Square;
    var d := Miss(mt, my, a, b);
    if s == [] {
      EmptyExpansion(mt, my, a, d);
    } else {
      var front, last := s[..|s| - 1], s[|s| - 1];
      Decompose(front, mt, my, a, b);
      DecomposeStep(s, mt, my, a, b, last.y - my, last.t - mt, d);
    }
  }

  lemma DecomposeStep(s: seq<Sample>, mt: real, my: real, a: real, b: real, p: real, q: real, d: real)
    requires s != [] && p == s[|s| - 1].y - my && q == s[|s| - 1].t - mt && d == Miss(mt, my, a, b)
    requires var front := s[..|s| - 1];
             Residual(front, a, b) ==
             Expansion(DevYY(front, my), DevTY(front, mt, my), DevTT(front, mt), |front| as real, OffY(front, my),
                       OffT(front, mt), a, d)
    ensures Residual(s, a, b) ==
            Expansion(DevYY(s, my), DevTY(s, mt, my), DevTT(s, mt), |s| as real, OffY(s, my), OffT(s, mt), a, d)
  {
    hide Expansion, OffT, OffY, Square;
    var front, last := s[..|s| - 1], s[|s| - 1];
    ResidualTerm(last, mt, my, a, b, p, q, d);
    hide Gap;
    var parts := p - a * q + d;
    assert Square(Gap(last, a, b)) == Square(parts);
    assert Residual(s, a, b) == Residual(front, a, b) + Square(parts);
    assert DevYY(s, my) == DevYY(front, my) + Square(p);
    assert DevTY(s, mt, my) == DevTY(front, mt, my) + q * p;
    assert DevTT(s, mt) == DevTT(front, mt) + Square(q);
    hide Residual, DevYY, DevTY, DevTT;
    OffGrows(s, mt, my);
    ExpansionGrows(DevYY(front, my), DevTY(front, mt, my), DevTT(front, mt), |front| as real, OffY(front, my),
                   OffT(front, mt), a, d, p, q);
    assert |front| as real + 1.0 == |s| as real;
  }

  lemma EmptyExpansion(mt: real, my: real, a: real, d: real)
    ensures Expansion(0.0, 0.0, 0.0, 0.0, OffY([], my), OffT([], mt), a, d) == 0.0
  {}

  lemma ResidualTerm(x: Sample, mt: real, my: real, a: real, b: real, p: real, q: real, d: real)
    requires p == x.y - my && q == x.t - mt && d == Miss(mt, my, a, b)
    ensures Gap(x, a, b) == p - a * q + d
  {
    assert a * q == a * x.t - a * mt;
  }

  lemma MeansCentre(s: seq<Sample>)
    requires s != []
    ensures OffY(s, MeanY(s)) == 0.0 && OffT(s, MeanT(s)) == 0.0
  {}

  /** Around the means the cross terms vanish. */
  lemma {:induction false} ResidualAroundMeans(s: seq<Sample>, a: real, b: real)
    requires s != []
    ensures var mt, my := MeanT(s), MeanY(s);
            Residual(s, a, b) ==
              DevYY(s, my) - 2.0 * a * DevTY(s, mt, my) + a * a * DevTT(s, mt) +
                  |s| as real * Square(Miss(mt, my, a, b))
  {
    hide Square, MeanT, MeanY, Residual, DevYY, DevTY, DevTT, OffT, OffY, Expansion, Miss;
    var mt, my := MeanT(s), MeanY(s);
    Decompose(s, mt, my, a, b);
    MeansCentre(s);
    CentredExpansion(DevYY(s, my), DevTY(s, mt, my), DevTT(s, mt), |s| as real, a, Miss(mt, my, a, b));
  }

  lemma CentredExpansion(yy: real, ty: real, tt: real, n: real, a: real, d: real)
    ensures Expansion(yy, ty, tt, n, 0.0, 0.0, a, d) == yy - 2.0 * a * ty + a * a * tt + n * Square(d)
  {}

  /** The part of the values' deviation that the best line explains. */
  function Explained(xx: real, xy: real): real
    requires xx != 0.0
  {
    (xy * xy) / xx
  }

  lemma CompleteSquare(a: real, xx: real, xy: real, yy: real)
    requires xx != 0.0
    ensures yy - 2.0 * a * xy + a * a * xx == (yy - Explained(xx, xy)) + xx * Square(a - xy / xx)
  {
    var m := xy / xx;
    assert xy == m * xx;
    assert Explained(xx, xy) == m * xy by {
      DivideBack(m * xy, xx, xy * xy);
    }
    assert xx * Square(a - m) == a * a * xx - 2.0 * a * (m * xx) + m * (m * xx) by {
      assert Square(a - m) == a * a - 2.0 * a * m + m * m;
      Distribute(xx, a, m);
    }
  }

  lemma Distribute(x: real, a: real, m: real)
    ensures x * (a * a - 2.0 * a * m + m * m) == a * a * x - 2.0 * a * (m * x) + m * (m * x)
  {
    assert x * (a * a) == a * a * x;
    assert x * (2.0 * a * m) == 2.0 * a * (m * x);
    assert x * (m * m) == m * (m * x);
  }

  // ----------------------------------------------------------------------------------------- theorems

  lemma FitSlope(s: seq<Sample>)
    requires s != [] && DevTT(s, MeanT(s)) != 0.0
    ensures var mt, my := MeanT(s), MeanY(s);
            && Fit(s).slope == DevTY(s, mt, my) / DevTT(s, mt)
            && Miss(mt, my, Fit(s).slope, Fit(s).intercept) == 0.0
  {
    hide DevTT, DevTY, DevYY, MeanT, MeanY, Ratio;
  }

  /** What is left at the optimum. */
  lemma LeastResidual(s: seq<Sample>)
    requires s != [] && DevTT(s, MeanT(s)) != 0.0
    ensures var mt, my := MeanT(s), MeanY(s);
            var xx, xy, yy := DevTT(s, mt), DevTY(s, mt, my), DevYY(s, my);
            Residual(s, Fit(s).slope, Fit(s).intercept) == yy - Explained(xx, xy)
  {
    hide Square, Residual, DevTT, DevTY, DevYY, MeanT, MeanY, Fit, Explained, Miss;
    var f := Fit(s);
    var mt, my := MeanT(s), MeanY(s);
    FitSlope(s);
    ResidualAroundMeans(s, f.slope, f.intercept);
    CompleteSquare(f.slope, DevTT(s, mt), DevTY(s, mt, my), DevYY(s, my));
    NoSquare(DevTT(s, mt), f.slope - DevTY(s, mt, my) / DevTT(s, mt));
    NoSquare(|s| as real, Miss(mt, my, f.slope, f.intercept));
  }

  lemma NoSquare(k: real, x: real)
    requires x == 0.0
    ensures k * Square(x) == 0.0
  {}

  /** Every line's residual is the fitted line's plus two squares that measure how far it is off. */
  lemma HowFarOff(s: seq<Sample>, a: real, b: real)
    requires s != [] && DevTT(s, MeanT(s)) != 0.0
    ensures var f := Fit(s);
            Residual(s, a, b) == Residual(s, f.slope, f.intercept)
              + DevTT(s, MeanT(s)) * Square(a - f.slope) + |s| as real * Square(Miss(MeanT(s), MeanY(s), a, b))
  {
    hide Square, Residual, DevTT, DevTY, DevYY, MeanT, MeanY, Fit, Explained, Miss;
    var mt, my := MeanT(s), MeanY(s);
    LeastResidual(s);
    FitSlope(s);
    ResidualAroundMeans(s, a, b);
    CompleteSquare(a, DevTT(s, mt), DevTY(s, mt, my), DevYY(s, my));
  }

  /** The fit is the least-squares optimum, and the only one: no line leaves less, and any other leaves
      more, unless all samples have one time. */
  lemma {:induction false} FitIsOptimal(s: seq<Sample>, a: real, b: real)
    requires s != [] && !SameTimes(s)
    ensures var f := Fit(s);
            && Residual(s, a, b) >= Residual(s, f.slope, f.intercept)
            && (Residual(s, a, b) == Residual(s, f.slope, f.intercept) <==> a == f.slope && b == f.intercept)
  {
    hide Residual, DevTT, MeanT, MeanY, Fit, SameTimes;
    GuardMeansSameTimes(s);
    HowFarOff(s, a, b);
    FitSlope(s);
    DeviationsNonNegative(s, MeanT(s), MeanY(s));
    var f := Fit(s);
    var u, v := Square(a - f.slope), Square(Miss(MeanT(s), MeanY(s), a, b));
    ScaledSquare(DevTT(s, MeanT(s)), u);
    ScaledSquare(|s| as real, v);
    SameMiss(MeanT(s), MeanY(s), f.slope, f.intercept, b);
  }

  lemma SameMiss(mt: real, my: real, a: real, b: real, c: real)
    requires Miss(mt, my, a, b) == 0.0
    ensures Miss(mt, my, a, c) == 0.0 <==> c == b
  {}

  lemma ScaledSquare(k: real, u: real)
    requires k > 0.0 && u >= 0.0
    ensures k * u >= 0.0 && (k * u == 0.0 <==> u == 0.0)
  {}

  /** The reported confidence is between 0 and 1 (the Cauchy-Schwarz inequality), and it is 1 exactly
      when the fitted line goes through every sample. */
  lemma ConfidenceInRange(s: seq<Sample>)
    requires s != []
    ensures 0.0 <= Fit(s).r2 <= 1.0
    ensures !SameTimes(s) ==> (Fit(s).r2 == 1.0 <==> OnLine(s, Fit(s).slope, Fit(s).intercept))
  {
    GuardMeansSameTimes(s);
    var mt, my := MeanT(s), MeanY(s);
    var xx, xy, yy := DevTT(s, mt), DevTY(s, mt, my), DevYY(s, my);
    DeviationsNonNegative(s, mt, my);
    if xx != 0.0 {
      var f := Fit(s);
      LeastResidual(s);
      ResidualZero(s, f.slope, f.intercept);
      hide Ratio, Explained;
      RatioInRange(xx, xy, yy);
    }
  }

  lemma RatioInRange(xx: real, xy: real, yy: real)
    requires xx > 0.0 && yy >= 0.0 && yy - Explained(xx, xy) >= 0.0
    ensures yy == 0.0 ==> Explained(xx, xy) == 0.0
    ensures yy != 0.0 ==> 0.0 <= Ratio(xx, xy, yy) <= 1.0
    ensures yy != 0.0 ==> (Ratio(xx, xy, yy) == 1.0 <==> yy - Explained(xx, xy) == 0.0)
  {
    var q := Explained(xx, xy);
    assert q * xx == xy * xy;
    assert Square(xy) >= 0.0;
    QuotientSign(Square(xy), xx);
    if yy != 0.0 {
      MulPositive(xx, yy);
      var r := q / yy;
      assert r * yy == q;
      assert Ratio(xx, xy, yy) == r by {
        assert r * (xx * yy) == (r * yy) * xx;
        DivideBack(r, xx * yy, xy * xy);
      }
      QuotientSign(q, yy);
      QuotientSign(yy - q, yy);
      assert (yy - q) / yy == 1.0 - r by {
        assert (1.0 - r) * yy == yy - q;
        DivideBack(1.0 - r, yy, yy - q);
      }
    }
  }

  lemma DivideBack(r: real, k: real, x: real)
    requires k != 0.0 && r * k == x
    ensures x / k == r
  {}

  lemma QuotientSign(x: real, k: real)
    requires k > 0.0 && x >= 0.0
    ensures x / k >= 0.0 && (x / k == 0.0 <==> x == 0.0)
  {}

  /** Samples of one straight line at different times give that line back, with full confidence. */
  lemma LineIsRecovered(s: seq<Sample>, slope: real, intercept: real)
    requires s != [] && !SameTimes(s) && OnLine(s, slope, intercept)
    ensures Fit(s) == Line(slope, intercept, 1.0)
  {
    ResidualZero(s, slope, intercept);
    var f := Fit(s);
    ResidualZero(s, f.slope, f.intercept);
    FitIsOptimal(s, slope, intercept);
    ConfidenceInRange(s);
  }
}
