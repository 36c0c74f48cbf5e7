/** Figures of merit of JV_plotter_GUI/Calculate_IV_parameters.py: per sweep
    the maximum power point, efficiency, a short-circuit fit near V = 0, an
    open-circuit fit at the two samples around the least |I|, and the fill
    factor; per device the Forward, Reverse and Average tables and the
    H-index. `np.linalg.lstsq` is exact here whenever the normal equations
    have one solution, and a parameter otherwise. */
module IvParameters {
  import opened Wrappers
  import opened Dicts
  import opened Frames
  import opened Records

  // ---------------------------------------------------------------------
  // Least squares

  /** A fitted straight line I = intercept + slope·V. */
  datatype Line = Line(intercept: real, slope: real)

  /** x·y, named so that the solver treats each product as one term. */
  function Prod(x: real, y: real): real
  {
    x * y
  }

  /** The ordinate a + b·x of the line with intercept a and slope b. */
  function Affine(a: real, b: real, x: real): real
  {
    a + Prod(b, x)
  }

  /** a·s + b·t. */
  function Comb(a: real, b: real, s: real, t: real): real
  {
    Prod(a, s) + Prod(b, t)
  }

  function Dot(xs: seq<real>, ys: seq<real>): real
    requires |xs| == |ys|
  {
    if xs == [] then 0.0 else Dot(xs[..|xs| - 1], ys[..|ys| - 1]) + Prod(xs[|xs| - 1], ys[|ys| - 1])
  }

  /** n·Σx² − (Σx)², zero exactly when the design matrix [1, x] is rank
      deficient. */
  function Det(n: real, sx: real, sxx: real): real
  {
    Prod(n, sxx) - Prod(sx, sx)
  }

  function Spread(xs: seq<real>): real
  {
    Det(|xs| as real, Sum(xs), Dot(xs, xs))
  }

  /** The solution of the normal equations from the sums of x, y, x² and xy. */
  function ClosedForm(n: real, sx: real, sy: real, sxx: real, sxy: real): Line
    requires n != 0.0 && Det(n, sx, sxx) != 0.0
  {
    var b := (Prod(n, sxy) - Prod(sx, sy)) / Det(n, sx, sxx);
    Line((sy - Prod(b, sx)) / n, b)
  }

  /** `linfit_golden` with its callers' name swap undone: the coefficient of
      the ones column is the intercept, the other the slope. When the
      normal equations have a unique solution it is the closed form;
      otherwise it is whatever `lstsq` returns. */
  function LinFit(xs: seq<real>, ys: seq<real>, lstsq: (seq<real>, seq<real>) -> Line): Line
    requires |xs| == |ys|
  {
    if Spread(xs) == 0.0 then lstsq(xs, ys)
    else
      assert |xs| > 0;
      ClosedForm(|xs| as real, Sum(xs), Sum(ys), Dot(xs, xs), Dot(xs, ys))
  }

  /** The samples (xs[k], ys[k]) all lie on the line a + b·x. */
  predicate OnLine(xs: seq<real>, ys: seq<real>, a: real, b: real)
    requires |xs| == |ys|
  {
    forall k :: 0 <= k < |xs| ==> ys[k] == Affine(a, b, xs[k])
  }

  /** Points on the line a + b·x have Σy = n·a + b·Σx ... */
  lemma {:induction false} SumOnLine(xs: seq<real>, ys: seq<real>, a: real, b: real)
    requires |xs| == |ys| && OnLine(xs, ys, a, b)
    ensures Sum(ys) == Comb(|xs| as real, b, a, Sum(xs))
  {
    if xs == [] {
      assert Comb(0.0, b, a, 0.0) == 0.0;
    } else {
      var m := |xs| - 1;
      SumOnLine(xs[..m], ys[..m], a, b);
      SumStep(m as real, a, b, Sum(xs[..m]), xs[m], ys[m], Sum(xs), Sum(ys));
    }
  }

  /** ... and Σxy = a·Σx + b·Σx². */
  lemma {:induction false} DotOnLine(xs: seq<real>, ys: seq<real>, a: real, b: real)
    requires |xs| == |ys| && OnLine(xs, ys, a, b)
    ensures Dot(xs, ys) == Comb(a, b, Sum(xs), Dot(xs, xs))
  {
    if xs == [] {
      assert Comb(a, b, 0.0, 0.0) == 0.0;
    } else {
      var m := |xs| - 1;
      var xs', ys' := xs[..m], ys[..m];
      DotOnLine(xs', ys', a, b);
      DotStep(a, b, Sum(xs'), Dot(xs', xs'), Dot(xs', ys'), xs[m], ys[m], Sum(xs), Dot(xs, xs), Dot(xs, ys));
    }
  }

  lemma SumStep(m: real, a: real, b: real, sx: real, x: real, y: real, sx': real, sy': real)
    requires y == Affine(a, b, x) && sx' == sx + x
    ensures Comb(m, b, a, sx) + y == Comb(m + 1.0, b, a, sx')
  {
  }

  lemma DotStep(a: real, b: real, sx: real, sxx: real, sxy: real, x: real, y: real, sx': real, sxx': real, sxy': real)
    requires sxy == Comb(a, b, sx, sxx) && y == Affine(a, b, x)
    requires sx' == sx + x && sxx' == sxx + Prod(x, x) && sxy' == sxy + Prod(x, y)
    ensures sxy' == Comb(a, b, sx', sxx')
  {
  }

  lemma DivMul(x: real, y: real)
    requires y != 0.0
    ensures (x / y) * y == x
  {
  }

  /** The closed form returns the line the sums came from. */
  lemma ClosedFormExact(n: real, sx: real, sy: real, sxx: real, sxy: real, a: real, b: real)
    requires n != 0.0 && Det(n, sx, sxx) != 0.0
    requires sy == Comb(n, b, a, sx) && sxy == Comb(a, b, sx, sxx)
    ensures ClosedForm(n, sx, sy, sxx, sxy) == Line(a, b)
  {
    var d := Det(n, sx, sxx);
    assert Prod(n, sxy) - Prod(sx, sy) == b * d;
    assert (b * d) / d == b;
    assert (sy - Prod(b, sx)) / n == a;
  }

  /** The fit is exact: samples lying on a line with two distinct abscissas
      give back that line. */
  lemma LinFitExact(xs: seq<real>, ys: seq<real>, a: real, b: real, lstsq: (seq<real>, seq<real>) -> Line)
    requires |xs| == |ys| && Spread(xs) != 0.0 && OnLine(xs, ys, a, b)
    ensures LinFit(xs, ys, lstsq) == Line(a, b)
  {
    SumOnLine(xs, ys, a, b);
    DotOnLine(xs, ys, a, b);
    assert |xs| > 0;
    ClosedFormExact(|xs| as real, Sum(xs), Sum(ys), Dot(xs, xs), Dot(xs, ys), a, b);
  }

  /** Two samples have a unique fit exactly when their abscissas differ. */
  lemma SpreadOfTwo(x0: real, x1: real)
    ensures Spread([x0, x1]) == Prod(x1 - x0, x1 - x0)
  {
    var xs := [x0, x1];
    assert xs[..1] == [x0];
    assert [x0][..0] == [];
    assert Sum([x0]) == x0;
    assert Sum(xs) == x0 + x1;
    assert Dot([x0], [x0]) == Prod(x0, x0);
    assert Dot(xs, xs) == Prod(x0, x0) + Prod(x1, x1);
    assert Prod(2.0, Prod(x0, x0) + Prod(x1, x1)) - Prod(x0 + x1, x0 + x1) == Prod(x1 - x0, x1 - x0);
  }

  /** Through two samples with distinct V the fit is the line through both. */
  lemma TwoPointFit(x0: real, y0: real, x1: real, y1: real, lstsq: (seq<real>, seq<real>) -> Line)
    requires x0 != x1
    ensures var l := LinFit([x0, x1], [y0, y1], lstsq);
      Affine(l.intercept, l.slope, x0) == y0 && Affine(l.intercept, l.slope, x1) == y1
  {
    SpreadOfTwo(x0, x1);
    MulNonZero(x1 - x0, x1 - x0);
    var b := (y1 - y0) / (x1 - x0);
    var a := y0 - Prod(b, x0);
    assert y1 == Affine(a, b, x1) by {
      assert Prod(b, x1 - x0) == y1 - y0;
    }
    assert y0 == Affine(a, b, x0);
    assert OnLine([x0, x1], [y0, y1], a, b);
    assert Spread([x0, x1]) != 0.0;
    LinFitExact([x0, x1], [y0, y1], a, b, lstsq);
  }

  // ---------------------------------------------------------------------
  // One sweep

  /** The power I·V of one sample. */
  function PowerAt(s: Sample): real
  {
    s.i * s.v
  }

  /** `sweep_data['I'] * sweep_data['V']`. */
  function Power(f: Frame): (p: seq<real>)
    ensures |p| == |f| && forall k :: 0 <= k < |f| ==> p[k] == PowerAt(f[k])
  {
    seq(|f|, k requires 0 <= k < |f| => PowerAt(f[k]))
  }

  /** `np.argmax(power)`: the first index of the largest I·V. */
  function MppIndex(f: Frame): (k: nat)
    requires |f| > 0
    ensures k < |f|
    ensures forall j :: 0 <= j < |f| ==> PowerAt(f[j]) <= PowerAt(f[k])
    ensures forall j :: 0 <= j < k ==> PowerAt(f[j]) < PowerAt(f[k])
  {
    var p := Power(f);
    var k := ArgMax(p);
    assert forall j :: 0 <= j < |f| ==> p[j] == PowerAt(f[j]);
    k
  }

  /** `calculate_voc_approx`: the first index of least |I|. */
  function VocIndex(f: Frame): (k: nat)
    requires |f| > 0
    ensures k < |f|
    ensures forall j :: 0 <= j < |f| ==> Abs(f[k].i) <= Abs(f[j].i)
    ensures forall j :: 0 <= j < k ==> Abs(f[j].i) > Abs(f[k].i)
  {
    var a := AbsAll(Currents(f));
    var k := ArgMin(a);
    assert forall j :: 0 <= j < |f| ==> a[j] == Abs(f[j].i);
    k
  }

  /** `np.abs(V) / voc_approx < 0.3`; a zero estimate divides into inf or
      NaN, which compare false. */
  predicate InIscWindow(v: real, vocApprox: real)
  {
    vocApprox != 0.0 && Abs(v) / vocApprox < 0.3
  }

  /** The samples selected by that mask, in order. */
  function IscWindow(f: Frame, vocApprox: real): (w: Frame)
    ensures |w| <= |f|
    ensures forall s :: s in w ==> s in f && InIscWindow(s.v, vocApprox)
  {
    if f == [] then []
    else
      var last := f[|f| - 1];
      IscWindow(f[..|f| - 1], vocApprox) + if InIscWindow(last.v, vocApprox) then [last] else []
  }

  /** `-1 / slope`, or 0.0 for a flat line. */
  function Resistance(slope: real): real
  {
    if slope == 0.0 then 0.0 else -1.0 / slope
  }

  lemma ResistanceInvertsSlope(slope: real)
    ensures slope == 0.0 ==> Resistance(slope) == 0.0
    ensures slope != 0.0 ==> Resistance(slope) * slope == -1.0
  {
  }

  /** `calculate_isc_and_rsh`: the window's fitted current at V = 0 and
      the shunt resistance from its slope. */
  function IscAndRsh(f: Frame, vocApprox: real, lstsq: (seq<real>, seq<real>) -> Line): (real, real)
  {
    var w := IscWindow(f, vocApprox);
    var l := LinFit(Voltages(w), Currents(w), lstsq);
    (l.intercept, Resistance(l.slope))
  }

  /** `calculate_voc_and_rs`: both branches of its conditional pick the
      samples at `k - 1` and `k`; the label -1 does not exist, so `k == 0`
      is the KeyError the caller catches (`None`). */
  function VocAndRs(f: Frame, k: nat, lstsq: (seq<real>, seq<real>) -> Line): (r: Option<(real, real)>)
    requires k < |f|
    ensures r.None? <==> k == 0
  {
    if k == 0 then None
    else
      var l := LinFit([f[k - 1].v, f[k].v], [f[k - 1].i, f[k].i], lstsq);
      Some(if l.slope == 0.0 then (0.0, 0.0) else (-l.intercept / l.slope, Resistance(l.slope)))
  }

  /** The figures of merit of one sweep, in amperes, volts and watts. */
  datatype Metrics = Metrics(eff: real, isc: real, voc: real, ff: real, pmax: real, vmpp: real,
                             jmpp: real, rs: real, rsh: real)

  /** `0.0 if isc * voc == 0 else max_power / (isc * voc)`. */
  function FillFactor(pmax: real, isc: real, voc: real): real
  {
    if isc * voc == 0.0 then 0.0 else pmax / (isc * voc)
  }

  /** The zero guard: FF is 0 exactly when Isc·Voc is, and otherwise
      FF·Isc·Voc = Pmax. */
  lemma FillFactorGuard(pmax: real, isc: real, voc: real)
    ensures isc * voc == 0.0 ==> FillFactor(pmax, isc, voc) == 0.0
    ensures isc * voc != 0.0 ==> FillFactor(pmax, isc, voc) * (isc * voc) == pmax
  {
  }

  /** `100 * max_power / (light_intensity * active_area)`. */
  function Efficiency(pmax: real, area: real, light: real): real
    requires area != 0.0 && light != 0.0
  {
    MulNonZero(light, area);
    100.0 * pmax / (light * area)
  }

  lemma MulNonZero(x: real, y: real)
    requires x != 0.0 && y != 0.0
    ensures x * y != 0.0 && Prod(x, y) != 0.0
  {
  }

  /** Efficiency in percent is the power density over the light intensity:
      η·(light·area) = 100·Pmax. */
  lemma EfficiencyScales(pmax: real, area: real, light: real)
    requires area != 0.0 && light != 0.0
    ensures Efficiency(pmax, area, light) * (light * area) == 100.0 * pmax
  {
    MulNonZero(light, area);
    DivMul(100.0 * pmax, light * area);
  }

  /** The sample at the maximum power point. */
  function Mpp(f: Frame): Sample
    requires |f| > 0
  {
    f[MppIndex(f)]
  }

  /** One pass of the sweep loop; the flag says the Voc fit raised the
      KeyError, in which case Voc and Rs default to 0. */
  function SweepMetrics(f: Frame, area: real, light: real, lstsq: (seq<real>, seq<real>) -> Line): (r: (Metrics, bool))
    requires |f| > 0 && area != 0.0 && light != 0.0
    ensures r.0.pmax == PowerAt(Mpp(f)) && r.0.vmpp == Mpp(f).v && r.0.jmpp == Mpp(f).i / area
    ensures r.0.eff == Efficiency(r.0.pmax, area, light) && r.0.ff == FillFactor(r.0.pmax, r.0.isc, r.0.voc)
    ensures r.1 <==> VocIndex(f) == 0
    ensures r.1 ==> r.0.voc == 0.0 && r.0.rs == 0.0
  {
    var p := Mpp(f);
    var k := VocIndex(f);
    var fit := IscAndRsh(f, f[k].v, lstsq);
    var vr := VocAndRs(f, k, lstsq);
    var voc := if vr.None? then 0.0 else vr.value.0;
    var rs := if vr.None? then 0.0 else vr.value.1;
    var pmax := PowerAt(p);
    (Metrics(Efficiency(pmax, area, light), fit.0, voc, FillFactor(pmax, fit.0, voc), pmax, p.v, p.i / area, rs, fit.1),
     vr.None?)
  }

  /** `calculate_isc_and_rsh` is the fit at V = 0: when the window's samples
      lie on I = a + b·V at two or more distinct voltages, it returns a and
      −1/b (0 if b = 0). */
  lemma IscAndRshExact(f: Frame, vocApprox: real, lstsq: (seq<real>, seq<real>) -> Line, a: real, b: real)
    requires var w := IscWindow(f, vocApprox);
      Spread(Voltages(w)) != 0.0 && forall s :: s in w ==> s.i == Affine(a, b, s.v)
    ensures IscAndRsh(f, vocApprox, lstsq) == (a, Resistance(b))
  {
    var w := IscWindow(f, vocApprox);
    var xs, ys := Voltages(w), Currents(w);
    forall k | 0 <= k < |xs|
      ensures ys[k] == Affine(a, b, xs[k])
    {
      assert w[k] in w;
    }
    LinFitExact(xs, ys, a, b, lstsq);
  }

  /** `calculate_voc_and_rs` is the secant through the samples at `k - 1` and
      `k`: Voc is where it reaches I = 0, and Rs·slope = −1. */
  lemma VocAndRsOnSecant(f: Frame, k: nat, lstsq: (seq<real>, seq<real>) -> Line)
    requires 0 < k < |f|
    requires f[k - 1].v != f[k].v && f[k - 1].i != f[k].i
    ensures var p, q := f[k - 1], f[k];
      var r := VocAndRs(f, k, lstsq).value;
      && Prod(r.0 - p.v, q.i - p.i) == -Prod(p.i, q.v - p.v)
      && Prod(r.1, q.i - p.i) == -(q.v - p.v)
  {
    var p, q := f[k - 1], f[k];
    var l := LinFit([p.v, q.v], [p.i, q.i], lstsq);
    TwoPointFit(p.v, p.i, q.v, q.i, lstsq);
    var a, b := l.intercept, l.slope;
    assert Prod(b, q.v - p.v) == q.i - p.i;
    assert b != 0.0;
    var voc := -a / b;
    assert VocAndRs(f, k, lstsq).value == (voc, Resistance(b));
    assert Prod(voc, b) == -a;
    assert Prod(Resistance(b), b) == -1.0;
    SecantAlgebra(a, b, p.v, p.i, q.v, q.i, voc, Resistance(b));
  }

  lemma SecantAlgebra(a: real, b: real, pv: real, pi: real, qv: real, qi: real, voc: real, rs: real)
    requires pi == Affine(a, b, pv) && qi == Affine(a, b, qv)
    requires Prod(voc, b) == -a && Prod(rs, b) == -1.0
    ensures Prod(voc - pv, qi - pi) == -Prod(pi, qv - pv)
    ensures Prod(rs, qi - pi) == -(qv - pv)
  {
    assert qi - pi == Prod(b, qv - pv);
    assert Prod(voc - pv, qi - pi) == Prod(Prod(voc, b) - Prod(pv, b), qv - pv);
    assert Prod(rs, qi - pi) == Prod(Prod(rs, b), qv - pv);
  }

  /** The sweep's Isc and Rsh are those of the window fit around V = 0. */
  lemma SweepIscIsFitAtZeroVolts(f: Frame, area: real, light: real, lstsq: (seq<real>, seq<real>) -> Line, a: real, b: real)
    requires |f| > 0 && area != 0.0 && light != 0.0
    requires var w := IscWindow(f, f[VocIndex(f)].v);
      Spread(Voltages(w)) != 0.0 && forall s :: s in w ==> s.i == Affine(a, b, s.v)
    ensures var m := SweepMetrics(f, area, light, lstsq).0;
      m.isc == a && m.rsh == Resistance(b)
  {
    IscAndRshExact(f, f[VocIndex(f)].v, lstsq, a, b);
  }

  /** The sweep's Voc and Rs are those of the secant at the least |I|. */
  lemma SweepVocOnSecant(f: Frame, area: real, light: real, lstsq: (seq<real>, seq<real>) -> Line)
    requires |f| > 0 && area != 0.0 && light != 0.0
    requires VocIndex(f) > 0
    requires f[VocIndex(f) - 1].v != f[VocIndex(f)].v && f[VocIndex(f) - 1].i != f[VocIndex(f)].i
    ensures var k := VocIndex(f);
      var m := SweepMetrics(f, area, light, lstsq).0;
      var p, q := f[k - 1], f[k];
      && Prod(m.voc - p.v, q.i - p.i) == -Prod(p.i, q.v - p.v)
      && Prod(m.rs, q.i - p.i) == -(q.v - p.v)
  {
    VocAndRsOnSecant(f, VocIndex(f), lstsq);
  }

  // ---------------------------------------------------------------------
  // One device: `fill_dict_with_iv_parameters`

  /** One direction's table, in the order of `parameter_dict` entries 3 to
      11: currents become densities in mA/cm². */
  function Table(m: Metrics, area: real): (t: Params)
    requires area != 0.0
    ensures Keys(t) == MetricNames
  {
    [(EFFICIENCY, m.eff), (JSC, 1000.0 * m.isc / area), (VOC, m.voc), (FILL_FACTOR, m.ff),
     (PMAX, m.pmax), (VMPP, m.vmpp), (JMPP, 1000.0 * m.jmpp), (RS, m.rs), (RSH, m.rsh)]
  }

  /** The 'Average' table, written entry by entry as the source does. */
  function AverageTable(f: Metrics, r: Metrics, area: real): (t: Params)
    requires area != 0.0
    ensures Keys(t) == MetricNames
  {
    [(EFFICIENCY, (r.eff + f.eff) / 2.0),
     (JSC, 1000.0 * (f.isc / area + r.isc / area) / 2.0),
     (VOC, (r.voc + f.voc) / 2.0),
     (FILL_FACTOR, (r.ff + f.ff) / 2.0),
     (PMAX, (r.pmax + f.pmax) / 2.0),
     (VMPP, (r.vmpp + f.vmpp) / 2.0),
     (JMPP, 1000.0 * (r.jmpp + f.jmpp) / 2.0),
     (RS, (f.rs + r.rs) / 2.0),
     (RSH, (r.rsh + f.rsh) / 2.0)]
  }

  /** Every 'Average' entry is the mean of the Forward and Reverse entries
      under the same name. */
  lemma AverageIsMean(f: Metrics, r: Metrics, area: real)
    requires area != 0.0
    ensures var a, tf, tr := AverageTable(f, r, area), Table(f, area), Table(r, area);
      forall j :: 0 <= j < |a| ==> a[j].1 == Mean([tf[j].1, tr[j].1])
  {
    var a, tf, tr := AverageTable(f, r, area), Table(f, area), Table(r, area);
    forall j | 0 <= j < |a|
      ensures a[j].1 == Mean([tf[j].1, tr[j].1])
    {
      MeanOfTwo(tf[j].1, tr[j].1);
      if j == 1 {
        assert 1000.0 * (f.isc / area + r.isc / area) == 1000.0 * f.isc / area + 1000.0 * r.isc / area;
      }
    }
  }

  /** The densities are the currents per unit area, in mA/cm². */
  lemma TableDensities(m: Metrics, area: real)
    requires area != 0.0
    ensures var t := Table(m, area);
      t[1].0 == JSC && Prod(t[1].1, area) == 1000.0 * m.isc
      && t[6].0 == JMPP && t[6].1 == 1000.0 * m.jmpp
  {
    DivMul(1000.0 * m.isc, area);
  }

  /** `(eff_reverse - eff_forward) / eff_reverse`; numpy gives inf or NaN for
      a zero reverse efficiency. */
  function HIndex(f: Metrics, r: Metrics): Value
  {
    if r.eff == 0.0 then NonFinite else Finite((r.eff - f.eff) / r.eff)
  }

  /** The H-index is the reverse scan's relative efficiency surplus: finite
      exactly when the reverse efficiency is not zero, then h·η_r = η_r − η_f,
      so it is zero exactly when the two scans agree. */
  lemma HIndexMeaning(f: Metrics, r: Metrics)
    ensures HIndex(f, r).NonFinite? <==> r.eff == 0.0
    ensures HIndex(f, r).Finite? ==> Prod(HIndex(f, r).x, r.eff) == r.eff - f.eff
    ensures HIndex(f, r).Finite? ==> (HIndex(f, r).x == 0.0 <==> f.eff == r.eff)
  {
    if r.eff != 0.0 {
      DivMul(r.eff - f.eff, r.eff);
    }
  }

  /** The three tables stored under 'Parameters'. */
  function ParametersOf(f: Metrics, r: Metrics, area: real): (p: Dict<string, Params>)
    requires area != 0.0
    ensures Keys(p) == ["Forward", "Reverse", "Average"]
  {
    [("Forward", Table(f, area)), ("Reverse", Table(r, area)), ("Average", AverageTable(f, r, area))]
  }

  // ---------------------------------------------------------------------
  // `perform_calculation` as folds over folders, devices and sweeps

  const FORWARD_SWEEP := "1_Forward"
  const REVERSE_SWEEP := "2_Reverse"

  /** The object's attributes besides `data`: the warnings, the last
      Forward and Reverse figures (`None` until a sweep sets them), the
      current device's settings and the last H-index. */
  datatype Calc = Calc(warnings: seq<string>, forward: Option<Metrics>, reverse: Option<Metrics>,
                       area: Option<real>, light: Option<real>, distance: Option<real>, hIndex: Option<Value>)

  /** The attributes right after `__init__`'s assignments. */
  const Fresh := Calc([], None, None, None, None, None, None)

  /** What the loop body computes from one frame: the figures and whether
      the Voc fit raised the KeyError, or `None` for an empty frame, on
      which numpy's `argmax` raises. It depends on nothing else. */
  function Measured(area: real, light: real, lstsq: (seq<real>, seq<real>) -> Line): Frame -> Option<(Metrics, bool)>
    requires area != 0.0 && light != 0.0
  {
    f => if f == [] then None else Some(SweepMetrics(f, area, light, lstsq))
  }

  /** The loop body's computation as a function of the device's area and
      light intensity: defined where both are non-zero. */
  type Meter = (real, real) --> (Frame -> Option<(Metrics, bool)>)

  ghost predicate Meters(meter: Meter)
  {
    forall a, l :: a != 0.0 && l != 0.0 ==> meter.requires(a, l)
  }

  /** The computation `perform_calculation` performs. */
  function Metered(lstsq: (seq<real>, seq<real>) -> Line): (meter: Meter)
    ensures Meters(meter)
  {
    (a, l) requires a != 0.0 && l != 0.0 => Measured(a, l, lstsq)
  }

  /** One pass of the sweep loop: the ValueError of an empty frame; a
      failed Voc fit adds "<device> in <folder>" to the warnings; only
      '1_Forward' and '2_Reverse' are stored. */
  function SweepStep(c: Calc, who: string, name: string, m: Option<(Metrics, bool)>): (r: Result<Calc>)
  {
    match m
    case None => Err(ValueError("attempt to get argmax of an empty sequence"))
    case Some((x, failed)) =>
      Ok(c.(warnings := (if failed then c.warnings + [who] else c.warnings),
            forward := (if name == FORWARD_SWEEP then Some(x) else c.forward),
            reverse := (if name == REVERSE_SWEEP then Some(x) else c.reverse)))
  }

  /** The sweep loop over the first `n` sweeps. */
  function SweepLoop(c: Calc, who: string, sweeps: Dict<string, Frame>, measure: Frame -> Option<(Metrics, bool)>, n: nat): (r: Result<Calc>)
    requires n <= |sweeps|
    ensures r.Ok? ==> r.value.(warnings := c.warnings, forward := c.forward, reverse := c.reverse) == c
    ensures r.Ok? ==> c.warnings <= r.value.warnings
  {
    if n == 0 then Ok(c)
    else
      var prev :- SweepLoop(c, who, sweeps, measure, n - 1);
      SweepStep(prev, who, sweeps[n - 1].0, measure(sweeps[n - 1].1))
  }

  /** The settings every record needs a non-zero value for, when it has one. */
  predicate Lit(rec: Record)
  {
    (rec.area.Some? ==> rec.area.value != 0.0) && (rec.light.Some? ==> rec.light.value != 0.0)
  }

  /** One device: the three settings (a KeyError when missing), the sweep
      loop, then `fill_dict_with_iv_parameters`, whose arithmetic on a
      direction no sweep has set yet is a TypeError. The record gets its
      'Parameters' and 'H-index' and nothing else. */
  function DeviceStep(c: Calc, folder: string, device: string, rec: Record, meter: Meter): (r: Result<(Calc, Record)>)
    requires Lit(rec) && Meters(meter)
    ensures rec.area.None? ==> r == Err(KeyError(AREA))
    ensures rec.area.Some? && rec.light.None? ==> r == Err(KeyError(LIGHT))
    ensures r.Ok? ==> r.value.1 == rec.(parameters := r.value.1.parameters, hIndex := r.value.1.hIndex)
    ensures r.Ok? ==> r.value.1.hIndex == r.value.0.hIndex && r.value.0.hIndex.Some? && r.value.1.parameters.Some?
    ensures r.Ok? ==> r.value.0.area == rec.area && r.value.0.light == rec.light && r.value.0.distance == rec.distance
  {
    if rec.area.None? then Err(KeyError(AREA))
    else if rec.light.None? then Err(KeyError(LIGHT))
    else if rec.distance.None? then Err(KeyError(DISTANCE))
    else
      var area, light := rec.area.value, rec.light.value;
      var c' := c.(area := rec.area, light := rec.light, distance := rec.distance);
      var s :- SweepLoop(c', device + " in " + folder, rec.data, meter(area, light), |rec.data|);
      if s.forward.None? || s.reverse.None? then Err(TypeError("unsupported operand type(s) for -: 'NoneType'"))
      else
        var h := HIndex(s.forward.value, s.reverse.value);
        Ok((s.(hIndex := Some(h)),
            rec.(parameters := Some(ParametersOf(s.forward.value, s.reverse.value, area)), hIndex := Some(h))))
  }

  /** The body of the device loop, as a function of the attributes, the
      device's name and its record. */
  type DeviceRun = (Calc, string, Record) --> Result<(Calc, Record)>

  /** The body of the folder loop, as a function of the attributes, the
      folder's name and its devices. */
  type FolderRun = (Calc, string, Dict<string, Record>) --> Result<(Calc, Dict<string, Record>)>

  ghost predicate RunsOnDevices(step: DeviceRun, devs: Dict<string, Record>)
  {
    forall c, j :: 0 <= j < |devs| ==> step.requires(c, devs[j].0, devs[j].1)
  }

  ghost predicate RunsOnFolders(step: FolderRun, data: Folders)
  {
    forall c, i :: 0 <= i < |data| ==> step.requires(c, data[i].0, data[i].1)
  }

  /** The device loop over the first `n` devices: the attributes after it
      and the updated records of those devices. */
  function DeviceLoop(c: Calc, devs: Dict<string, Record>, n: nat, step: DeviceRun): Result<(Calc, Dict<string, Record>)>
    requires n <= |devs| && RunsOnDevices(step, devs)
  {
    if n == 0 then Ok((c, []))
    else
      var prev :- DeviceLoop(c, devs, n - 1, step);
      var next :- step(prev.0, devs[n - 1].0, devs[n - 1].1);
      Ok((next.0, prev.1 + [(devs[n - 1].0, next.1)]))
  }

  /** The folder loop over the first `n` folders. */
  function FolderLoop(c: Calc, data: Folders, n: nat, step: FolderRun): Result<(Calc, Folders)>
    requires n <= |data| && RunsOnFolders(step, data)
  {
    if n == 0 then Ok((c, []))
    else
      var prev :- FolderLoop(c, data, n - 1, step);
      var next :- step(prev.0, data[n - 1].0, data[n - 1].1);
      Ok((next.0, prev.1 + [(data[n - 1].0, next.1)]))
  }

  /** The loop bodies of `perform_calculation`. */
  function DeviceBody(folder: string, meter: Meter): DeviceRun
    requires Meters(meter)
  {
    (c, device, rec) requires Lit(rec) => DeviceStep(c, folder, device, rec, meter)
  }

  /** Every record of a folder has usable settings where present. */
  predicate FolderLit(devs: Dict<string, Record>)
  {
    forall j :: 0 <= j < |devs| ==> Lit(devs[j].1)
  }

  function FolderBody(meter: Meter): FolderRun
    requires Meters(meter)
  {
    (c, folder, devs) requires FolderLit(devs) => DeviceLoop(c, devs, |devs|, DeviceBody(folder, meter))
  }

  predicate AllLit(data: Folders)
  {
    forall i :: 0 <= i < |data| ==> FolderLit(data[i].1)
  }

  /** `perform_calculation` from the attributes `c` over `data`. */
  function Calculation(c: Calc, data: Folders, meter: Meter): Result<(Calc, Folders)>
    requires AllLit(data) && Meters(meter)
  {
    FolderLoop(c, data, |data|, FolderBody(meter))
  }

  // ---------------------------------------------------------------------
  // Properties of the folds

  /** Once a fold has failed, later steps keep its error. */
  lemma {:induction false} SweepsStayFailed(c: Calc, who: string, sweeps: Dict<string, Frame>,
                                            measure: Frame -> Option<(Metrics, bool)>, m: nat, n: nat)
    requires m <= n <= |sweeps|
    requires SweepLoop(c, who, sweeps, measure, m).Err?
    ensures SweepLoop(c, who, sweeps, measure, n) == SweepLoop(c, who, sweeps, measure, m)
  {
    if n > m {
      SweepsStayFailed(c, who, sweeps, measure, m, n - 1);
    }
  }

  /** The sweep loop fails exactly when the loop body fails on one of its
      frames. */
  lemma {:induction false} SweepsFail(c: Calc, who: string, sweeps: Dict<string, Frame>,
                                      measure: Frame -> Option<(Metrics, bool)>, n: nat)
    requires n <= |sweeps|
    ensures SweepLoop(c, who, sweeps, measure, n).Err? <==> exists j :: 0 <= j < n && measure(sweeps[j].1).None?
  {
    if n > 0 {
      SweepsFail(c, who, sweeps, measure, n - 1);
      if SweepLoop(c, who, sweeps, measure, n - 1).Err? {
        var j :| 0 <= j < n - 1 && measure(sweeps[j].1).None?;
        assert 0 <= j < n && measure(sweeps[j].1).None?;
      }
    }
  }

  /** The stored figures of one direction. */
  function Slot(c: Calc, name: string): Option<Metrics>
  {
    if name == FORWARD_SWEEP then c.forward else c.reverse
  }

  /** After the sweep loop, a direction holds what the loop body computed
      from the sweep of that name, or, when the device has none, what the
      previous device left there. */
  lemma {:induction false} SweepsStoreDirection(c: Calc, who: string, sweeps: Dict<string, Frame>,
                                                measure: Frame -> Option<(Metrics, bool)>, n: nat, name: string)
    requires n <= |sweeps| && Valid(sweeps)
    requires name == FORWARD_SWEEP || name == REVERSE_SWEEP
    requires SweepLoop(c, who, sweeps, measure, n).Ok?
    ensures var r := SweepLoop(c, who, sweeps, measure, n).value;
      match Lookup(sweeps[..n], name)
      case None => Slot(r, name) == Slot(c, name)
      case Some(f) => measure(f).Some? && Slot(r, name) == Some(measure(f).value.0)
  {
    if n > 0 {
      SweepsStoreDirection(c, who, sweeps, measure, n - 1, name);
      LookupPrefix(sweeps, n, name);
    }
  }

  /** The number of sweeps among the first `n` whose Voc fit failed. */
  function Dead(sweeps: Dict<string, Frame>, measure: Frame -> Option<(Metrics, bool)>, n: nat): nat
    requires n <= |sweeps|
  {
    if n == 0 then 0
    else
      var m := measure(sweeps[n - 1].1);
      Dead(sweeps, measure, n - 1) + if m.Some? && m.value.1 then 1 else 0
  }

  function Repeat(s: string, k: nat): (r: seq<string>)
    ensures |r| == k && forall j :: 0 <= j < k ==> r[j] == s
  {
    seq(k, _ => s)
  }

  lemma RepeatSnoc(s: string, k: nat)
    ensures Repeat(s, k + 1) == Repeat(s, k) + [s]
  {
  }

  /** The loop adds one warning per sweep whose Voc fit raised the
      KeyError, each naming the device and its folder. */
  lemma {:induction false} SweepsWarn(c: Calc, who: string, sweeps: Dict<string, Frame>,
                                      measure: Frame -> Option<(Metrics, bool)>, n: nat)
    requires n <= |sweeps|
    requires SweepLoop(c, who, sweeps, measure, n).Ok?
    ensures SweepLoop(c, who, sweeps, measure, n).value.warnings == c.warnings + Repeat(who, Dead(sweeps, measure, n))
  {
    if n > 0 {
      SweepsWarn(c, who, sweeps, measure, n - 1);
      RepeatSnoc(who, Dead(sweeps, measure, n - 1));
    }
  }

  /** One more pass of the device loop. */
  lemma DeviceLoopNext(c: Calc, devs: Dict<string, Record>, n: nat, step: DeviceRun, s: Calc, done: Dict<string, Record>)
    requires n < |devs| && RunsOnDevices(step, devs)
    requires DeviceLoop(c, devs, n, step) == Ok((s, done))
    ensures var r := step(s, devs[n].0, devs[n].1);
      DeviceLoop(c, devs, n + 1, step) == if r.Ok? then Ok((r.value.0, done + [(devs[n].0, r.value.1)])) else Err(r.error)
  {
  }

  /** One more pass of the folder loop. */
  lemma FolderLoopNext(c: Calc, data: Folders, n: nat, step: FolderRun, s: Calc, done: Folders)
    requires n < |data| && RunsOnFolders(step, data)
    requires FolderLoop(c, data, n, step) == Ok((s, done))
    ensures var r := step(s, data[n].0, data[n].1);
      FolderLoop(c, data, n + 1, step) == if r.Ok? then Ok((r.value.0, done + [(data[n].0, r.value.1)])) else Err(r.error)
  {
  }

  /** One folder more of the calculation: a failure is the calculation's
      error; otherwise the folder's updated records are written in place. */
  lemma PerformNext(start: Calc, original: Folders, i: nat, meter: Meter, s: Calc, done: Folders)
    requires AllLit(original) && Meters(meter) && i < |original| && |done| == i
    requires FolderLoop(start, original, i, FolderBody(meter)) == Ok((s, done))
    ensures var r := FolderBody(meter)(s, original[i].0, original[i].1);
      (r.Err? ==> Calculation(start, original, meter) == Err(r.error))
      && (r.Ok? ==>
            FolderLoop(start, original, i + 1, FolderBody(meter)) == Ok((r.value.0, done + [(original[i].0, r.value.1)]))
            && (done + original[i..])[i := (original[i].0, r.value.1)] == done + [(original[i].0, r.value.1)] + original[i + 1..])
  {
    var r := FolderBody(meter)(s, original[i].0, original[i].1);
    FolderLoopNext(start, original, i, FolderBody(meter), s, done);
    if r.Err? {
      FoldersStayFailed(start, original, i + 1, |original|, FolderBody(meter));
    } else {
      Overwrite(done, original, i, (original[i].0, r.value.1));
    }
  }

  /** Writing entry `n` of a half-updated sequence. */
  lemma Overwrite<T>(done: seq<T>, rest: seq<T>, n: nat, x: T)
    requires |done| == n < |rest|
    ensures (done + rest[n..])[n := x] == done + [x] + rest[n + 1..]
  {
  }

  /** A device with its three settings: its sweep loop, then the tables. */
  lemma DeviceStepAfterSweeps(c: Calc, folder: string, device: string, rec: Record, meter: Meter)
    requires Lit(rec) && Meters(meter) && rec.area.Some? && rec.light.Some? && rec.distance.Some?
    ensures var s := SweepLoop(c.(area := rec.area, light := rec.light, distance := rec.distance),
                               device + " in " + folder, rec.data, meter(rec.area.value, rec.light.value), |rec.data|);
      DeviceStep(c, folder, device, rec, meter) ==
        if s.Err? then Err(s.error)
        else if s.value.forward.None? || s.value.reverse.None? then Err(TypeError("unsupported operand type(s) for -: 'NoneType'"))
        else
          var h := HIndex(s.value.forward.value, s.value.reverse.value);
          Ok((s.value.(hIndex := Some(h)),
              rec.(parameters := Some(ParametersOf(s.value.forward.value, s.value.reverse.value, rec.area.value)), hIndex := Some(h))))
  {
  }

  /** In the calculation, the Voc fit fails exactly on a sweep whose least
      |I| is at its first sample. */
  lemma MeasuredFails(area: real, light: real, lstsq: (seq<real>, seq<real>) -> Line, f: Frame)
    requires area != 0.0 && light != 0.0
    ensures var m := Measured(area, light, lstsq)(f);
      (m.None? <==> f == []) && (m.Some? ==> (m.value.1 <==> VocIndex(f) == 0))
  {
  }

  /** Over non-empty frames the sweep loop succeeds, and each direction the
      device has holds the figures of its own sweep. */
  lemma SweepsMeasureDirections(c: Calc, who: string, sweeps: Dict<string, Frame>, area: real, light: real,
                                lstsq: (seq<real>, seq<real>) -> Line)
    requires area != 0.0 && light != 0.0 && Valid(sweeps)
    requires forall j :: 0 <= j < |sweeps| ==> sweeps[j].1 != []
    ensures var r := SweepLoop(c, who, sweeps, Measured(area, light, lstsq), |sweeps|);
      && r.Ok?
      && (forall name | name == FORWARD_SWEEP || name == REVERSE_SWEEP ::
            match Lookup(sweeps, name)
            case None => Slot(r.value, name) == Slot(c, name)
            case Some(f) => |f| > 0 && Slot(r.value, name) == Some(SweepMetrics(f, area, light, lstsq).0))
  {
    var measure := Measured(area, light, lstsq);
    var n := |sweeps|;
    SweepsFail(c, who, sweeps, measure, n);
    forall j | 0 <= j < n
      ensures measure(sweeps[j].1).Some?
    {
      MeasuredFails(area, light, lstsq, sweeps[j].1);
    }
    PrefixAll(sweeps);
    forall name | name == FORWARD_SWEEP || name == REVERSE_SWEEP
      ensures match Lookup(sweeps, name)
            case None => Slot(SweepLoop(c, who, sweeps, measure, n).value, name) == Slot(c, name)
            case Some(f) => |f| > 0 && Slot(SweepLoop(c, who, sweeps, measure, n).value, name) == Some(SweepMetrics(f, area, light, lstsq).0)
    {
      SweepsStoreDirection(c, who, sweeps, measure, n, name);
      if Lookup(sweeps, name).Some? {
        MeasuredFails(area, light, lstsq, Lookup(sweeps, name).value);
      }
    }
  }

  /** A device with a Forward and a Reverse sweep and non-empty frames is
      calculated exactly when its three settings are present (otherwise
      the KeyError) ... */
  lemma DeviceSucceeds(c: Calc, folder: string, device: string, rec: Record, lstsq: (seq<real>, seq<real>) -> Line)
    requires Lit(rec) && Valid(rec.data)
    requires forall j :: 0 <= j < |rec.data| ==> rec.data[j].1 != []
    requires Has(rec.data, FORWARD_SWEEP) && Has(rec.data, REVERSE_SWEEP)
    ensures DeviceStep(c, folder, device, rec, Metered(lstsq)).Ok? <==> rec.area.Some? && rec.light.Some? && rec.distance.Some?
  {
    if rec.area.Some? && rec.light.Some? && rec.distance.Some? {
      var c' := c.(area := rec.area, light := rec.light, distance := rec.distance);
      assert Lookup(rec.data, FORWARD_SWEEP).Some? && Lookup(rec.data, REVERSE_SWEEP).Some?;
      SweepsMeasureDirections(c', device + " in " + folder, rec.data, rec.area.value, rec.light.value, lstsq);
      DeviceStepAfterSweeps(c, folder, device, rec, Metered(lstsq));
    }
  }

  /** ... and then gets the tables of exactly those two sweeps and their
      H-index. */
  lemma DeviceParameters(c: Calc, folder: string, device: string, rec: Record, lstsq: (seq<real>, seq<real>) -> Line,
                         fwd: Frame, rev: Frame)
    requires Lit(rec) && Valid(rec.data)
    requires forall j :: 0 <= j < |rec.data| ==> rec.data[j].1 != []
    requires Lookup(rec.data, FORWARD_SWEEP) == Some(fwd) && Lookup(rec.data, REVERSE_SWEEP) == Some(rev)
    ensures var r := DeviceStep(c, folder, device, rec, Metered(lstsq));
      r.Ok? ==> (|fwd| > 0 && |rev| > 0 &&
        var f, b := SweepMetrics(fwd, rec.area.value, rec.light.value, lstsq).0,
                    SweepMetrics(rev, rec.area.value, rec.light.value, lstsq).0;
        r.value.1.parameters == Some(ParametersOf(f, b, rec.area.value)) && r.value.1.hIndex == Some(HIndex(f, b)))
  {
    if rec.area.Some? && rec.light.Some? && rec.distance.Some? {
      var area, light := rec.area.value, rec.light.value;
      var c' := c.(area := rec.area, light := rec.light, distance := rec.distance);
      var who := device + " in " + folder;
      assert Metered(lstsq)(area, light) == Measured(area, light, lstsq);
      SweepsMeasureDirections(c', who, rec.data, area, light, lstsq);
      DeviceStepAfterSweeps(c, folder, device, rec, Metered(lstsq));
      var s := SweepLoop(c', who, rec.data, Measured(area, light, lstsq), |rec.data|);
      assert Slot(s.value, FORWARD_SWEEP) == s.value.forward;
      assert Slot(s.value, REVERSE_SWEEP) == s.value.reverse;
    }
  }

  /** A device none of whose sweeps is called '1_Forward', met before any
      other device set the Forward figures, fails with the TypeError. */
  lemma DeviceWithoutForward(folder: string, device: string, rec: Record, lstsq: (seq<real>, seq<real>) -> Line)
    requires Lit(rec) && Valid(rec.data) && rec.area.Some? && rec.light.Some? && rec.distance.Some?
    requires forall j :: 0 <= j < |rec.data| ==> rec.data[j].1 != []
    requires Lookup(rec.data, FORWARD_SWEEP).None?
    ensures DeviceStep(Fresh, folder, device, rec, Metered(lstsq)).Err? && DeviceStep(Fresh, folder, device, rec, Metered(lstsq)).error.TypeError?
  {
    var c' := Fresh.(area := rec.area, light := rec.light, distance := rec.distance);
    SweepsMeasureDirections(c', device + " in " + folder, rec.data, rec.area.value, rec.light.value, lstsq);
  }

  /** `after` is `before` given its 'Parameters' and 'H-index', nothing else
      changed. */
  predicate Stamped(before: Record, after: Record)
  {
    after == before.(parameters := after.parameters, hIndex := after.hIndex) && after.parameters.Some? && after.hIndex.Some?
  }

  /** The same devices in the same order, each record stamped. */
  predicate Updated(before: Dict<string, Record>, after: Dict<string, Record>)
  {
    |after| == |before| && forall j :: 0 <= j < |before| ==> after[j].0 == before[j].0 && Stamped(before[j].1, after[j].1)
  }

  lemma {:induction false} DevicesStayFailed(c: Calc, devs: Dict<string, Record>, m: nat, n: nat, step: DeviceRun)
    requires m <= n <= |devs| && RunsOnDevices(step, devs)
    requires DeviceLoop(c, devs, m, step).Err?
    ensures DeviceLoop(c, devs, n, step) == DeviceLoop(c, devs, m, step)
  {
    if n > m {
      DevicesStayFailed(c, devs, m, n - 1, step);
    }
  }

  /** The device body only stamps the record it is given. */
  ghost predicate StampsDevices(step: DeviceRun, devs: Dict<string, Record>)
    requires RunsOnDevices(step, devs)
  {
    forall c, j :: 0 <= j < |devs| && step(c, devs[j].0, devs[j].1).Ok? ==>
      Stamped(devs[j].1, step(c, devs[j].0, devs[j].1).value.1)
  }

  /** The device loop keeps the folder's devices and their order and only
      stamps each record. */
  lemma {:induction false} DevicesUpdate(c: Calc, devs: Dict<string, Record>, n: nat, step: DeviceRun)
    requires n <= |devs| && RunsOnDevices(step, devs) && StampsDevices(step, devs)
    requires DeviceLoop(c, devs, n, step).Ok?
    ensures Updated(devs[..n], DeviceLoop(c, devs, n, step).value.1)
  {
    if n > 0 {
      DevicesUpdate(c, devs, n - 1, step);
    }
  }

  lemma DeviceBodyStamps(folder: string, meter: Meter, devs: Dict<string, Record>)
    requires FolderLit(devs) && Meters(meter)
    ensures RunsOnDevices(DeviceBody(folder, meter), devs) && StampsDevices(DeviceBody(folder, meter), devs)
  {
  }

  lemma {:induction false} FoldersStayFailed(c: Calc, data: Folders, m: nat, n: nat, step: FolderRun)
    requires m <= n <= |data| && RunsOnFolders(step, data)
    requires FolderLoop(c, data, m, step).Err?
    ensures FolderLoop(c, data, n, step) == FolderLoop(c, data, m, step)
  {
    if n > m {
      FoldersStayFailed(c, data, m, n - 1, step);
    }
  }

  /** The folder body only stamps the records of the folder it is given. */
  ghost predicate StampsFolders(step: FolderRun, data: Folders)
    requires RunsOnFolders(step, data)
  {
    forall c, i :: 0 <= i < |data| && step(c, data[i].0, data[i].1).Ok? ==>
      Updated(data[i].1, step(c, data[i].0, data[i].1).value.1)
  }

  lemma {:induction false} FoldersUpdate(c: Calc, data: Folders, n: nat, step: FolderRun)
    requires n <= |data| && RunsOnFolders(step, data) && StampsFolders(step, data)
    requires FolderLoop(c, data, n, step).Ok?
    ensures var out := FolderLoop(c, data, n, step).value.1;
      |out| == n && forall i :: 0 <= i < n ==> out[i].0 == data[i].0 && Updated(data[i].1, out[i].1)
  {
    if n > 0 {
      FoldersUpdate(c, data, n - 1, step);
    }
  }

  lemma FolderBodyStamps(meter: Meter, data: Folders)
    requires AllLit(data) && Meters(meter)
    ensures RunsOnFolders(FolderBody(meter), data) && StampsFolders(FolderBody(meter), data)
  {
    forall c, i | 0 <= i < |data| && FolderBody(meter)(c, data[i].0, data[i].1).Ok?
      ensures Updated(data[i].1, FolderBody(meter)(c, data[i].0, data[i].1).value.1)
    {
      var devs := data[i].1;
      DeviceBodyStamps(data[i].0, meter, devs);
      DevicesUpdate(c, devs, |devs|, DeviceBody(data[i].0, meter));
      PrefixAll(devs);
    }
  }

  /** The calculation keeps the folders and devices and their order, and
      only adds each record's 'Parameters' and 'H-index'. */
  lemma CalculationStamps(c: Calc, data: Folders, meter: Meter)
    requires AllLit(data) && Meters(meter) && Calculation(c, data, meter).Ok?
    ensures var out := Calculation(c, data, meter).value.1;
      |out| == |data| && forall i :: 0 <= i < |data| ==> out[i].0 == data[i].0 && Updated(data[i].1, out[i].1)
  {
    FolderBodyStamps(meter, data);
    FoldersUpdate(c, data, |data|, FolderBody(meter));
  }

  // ---------------------------------------------------------------------
  // The class

  /** `CalculateIVParameters`: the matched folders, whose records the
      calculation stamps in place, and the attributes it updates. Python's
      `__init__` is the constructor followed by `PerformCalculation`. */
  class CalculateIvParameters {
    var data: Folders
    var warnings: seq<string>
    var forward: Option<Metrics>
    var reverse: Option<Metrics>
    var area: Option<real>
    var light: Option<real>
    var distance: Option<real>
    var hIndex: Option<Value>

    /** The attributes besides `data`. */
    function State(): Calc
      reads this
    {
      Calc(warnings, forward, reverse, area, light, distance, hIndex)
    }

    constructor(matched: Folders)
      ensures data == matched && State() == Fresh
    {
      data := matched;
      warnings := [];
      forward, reverse := None, None;
      area, light, distance := None, None, None;
      hIndex := None;
    }

    /** The sweep loop of one device, `measure` being the loop body's
        computation at the device's settings. */
    method CalculateSweeps(who: string, sweeps: Dict<string, Frame>, measure: Frame -> Option<(Metrics, bool)>)
      returns (err: Option<Error>)
      modifies this
      ensures data == old(data)
      ensures var r := SweepLoop(old(State()), who, sweeps, measure, |sweeps|);
        if r.Ok? then err.None? && State() == r.value else err == Some(r.error)
    {
      ghost var start := State();
      var i := 0;
      while i < |sweeps|
        invariant 0 <= i <= |sweeps| && data == old(data)
        invariant SweepLoop(start, who, sweeps, measure, i) == Ok(State())
      {
        var name, m := sweeps[i].0, measure(sweeps[i].1);
        if m.None? {
          SweepsStayFailed(start, who, sweeps, measure, i + 1, |sweeps|);
          return Some(ValueError("attempt to get argmax of an empty sequence"));
        }
        var (x, failed) := m.value;
        if failed {
          warnings := warnings + [who];
        }
        if name == FORWARD_SWEEP {
          forward := Some(x);
        } else if name == REVERSE_SWEEP {
          reverse := Some(x);
        }
        i := i + 1;
      }
      err := None;
    }

    /** `fill_dict_with_iv_parameters` and the H-index assignment after it. */
    method FillDict(rec: Record) returns (r: Result<Record>)
      requires area.Some? && area.value != 0.0
      modifies this
      ensures data == old(data) && State().(hIndex := old(hIndex)) == old(State())
      ensures old(forward).None? || old(reverse).None? ==>
        r == Err(TypeError("unsupported operand type(s) for -: 'NoneType'")) && hIndex == old(hIndex)
      ensures old(forward).Some? && old(reverse).Some? ==>
        var f, b := old(forward).value, old(reverse).value;
        hIndex == Some(HIndex(f, b))
        && r == Ok(rec.(parameters := Some(ParametersOf(f, b, area.value)), hIndex := hIndex))
    {
      if forward.None? || reverse.None? {
        return Err(TypeError("unsupported operand type(s) for -: 'NoneType'"));
      }
      hIndex := Some(HIndex(forward.value, reverse.value));
      r := Ok(rec.(parameters := Some(ParametersOf(forward.value, reverse.value, area.value)), hIndex := hIndex));
    }

    /** The body of the device loop. */
    method CalculateDevice(folder: string, device: string, rec: Record, meter: Meter)
      returns (r: Result<Record>)
      requires Lit(rec) && Meters(meter)
      modifies this
      ensures data == old(data)
      ensures var d := DeviceStep(old(State()), folder, device, rec, meter);
        if d.Ok? then r == Ok(d.value.1) && State() == d.value.0 else r == Err(d.error)
    {
      if rec.area.None? {
        return Err(KeyError(AREA));
      }
      if rec.light.None? {
        return Err(KeyError(LIGHT));
      }
      if rec.distance.None? {
        assert DeviceStep(old(State()), folder, device, rec, meter) == Err(KeyError(DISTANCE));
        return Err(KeyError(DISTANCE));
      }
      DeviceStepAfterSweeps(old(State()), folder, device, rec, meter);
      area, light, distance := rec.area, rec.light, rec.distance;
      ghost var c' := State();
      var e := CalculateSweeps(device + " in " + folder, rec.data, meter(rec.area.value, rec.light.value));
      ghost var s := SweepLoop(c', device + " in " + folder, rec.data, meter(rec.area.value, rec.light.value), |rec.data|);
      if e.Some? {
        return Err(e.value);
      }
      assert State() == s.value;
      r := FillDict(rec);
    }

    /** The device loop of the folder at position `i`, which stamps that
        folder's records in place. */
    method CalculateFolder(i: nat, meter: Meter) returns (err: Option<Error>)
      requires i < |data| && FolderLit(data[i].1) && Meters(meter)
      modifies this
      ensures var r := FolderBody(meter)(old(State()), old(data)[i].0, old(data)[i].1);
        if r.Ok? then err.None? && State() == r.value.0 && data == old(data)[i := (old(data)[i].0, r.value.1)]
        else err == Some(r.error)
    {
      var name, devs := data[i].0, data[i].1;
      ghost var start := State();
      ghost var before := data;
      ghost var done: Dict<string, Record> := [];
      assert done + devs[0..] == devs;
      assert data == before[i := (name, devs)];
      var j := 0;
      while j < |devs|
        invariant 0 <= j <= |devs| && |done| == j
        invariant data == before[i := (name, done + devs[j..])]
        invariant DeviceLoop(start, devs, j, DeviceBody(name, meter)) == Ok((State(), done))
      {
        var device, rec := devs[j].0, devs[j].1;
        ghost var s := State();
        var out := CalculateDevice(name, device, rec, meter);
        DeviceLoopNext(start, devs, j, DeviceBody(name, meter), s, done);
        if out.Err? {
          DevicesStayFailed(start, devs, j + 1, |devs|, DeviceBody(name, meter));
          return Some(out.error);
        }
        data := data[i := (name, data[i].1[j := (device, out.value)])];
        Overwrite(done, devs, j, (device, out.value));
        done := done + [(device, out.value)];
        j := j + 1;
      }
      assert done + devs[|devs|..] == done;
      err := None;
    }

    /** `perform_calculation`; the warning dialog `__init__` shows
        afterwards is left out. */
    method PerformCalculation(meter: Meter) returns (err: Option<Error>)
      requires AllLit(data) && Meters(meter)
      modifies this
      ensures var r := Calculation(old(State()), old(data), meter);
        if r.Ok? then err.None? && data == r.value.1 && State() == r.value.0 else err == Some(r.error)
    {
      ghost var start := State();
      ghost var original := data;
      ghost var done: Folders := [];
      assert data == done + original[0..];
      var i := 0;
      while i < |data|
        invariant 0 <= i <= |data| == |original| && |done| == i
        invariant data == done + original[i..]
        invariant FolderLoop(start, original, i, FolderBody(meter)) == Ok((State(), done))
      {
        assert data[i] == original[i] && FolderLit(original[i].1);
        ghost var s := State();
        ghost var r := FolderBody(meter)(s, original[i].0, original[i].1);
        PerformNext(start, original, i, meter, s, done);
        var e := CalculateFolder(i, meter);
        if e.Some? {
          return e;
        }
        done := done + [(original[i].0, r.value.1)];
        i := i + 1;
      }
      assert done + original[|original|..] == done;
      err := None;
    }
  }
}
