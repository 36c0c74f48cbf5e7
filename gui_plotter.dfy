/** The older workbook writer of the GUI application (GUI/Plotter.py,
    `DevicePlotter`). It measures every sweep inline, keeps the latest
    Forward and Reverse figures in attributes that `write_parameters` reads
    back, writes one sheet per device, and fills four summary tables with
    formulas that point into those sheets. A device is the JV writer's
    `Device`, of which this writer reads the sweeps, 'Active area',
    'Light Intensity' and the stamp it stores; charts, formats and the file
    itself are left out. */
module GuiPlotter {
  import opened Wrappers
  import opened Dicts
  import opened Frames
  import opened Records
  import opened Strs
  import opened Plotter
  import IV = IvParameters
  import PT = PlotterTables
  import PW = PlotterWorkbook

  // ---------------------------------------------------------------------
  // Sheet names

  /** The name of a device's sheet as this writer computes it: the label
      is cut to 31 characters first, and only then, with a single folder,
      replaced by the bare device name. */
  function GuiSheetName(folder: string, counter: nat, device: string, long: bool, single: bool): string
  {
    var labelled := if long then Labelled(NatToString(counter), device) else Labelled(folder, device);
    if single then device else Truncated(labelled)
  }

  /** With a single folder the sheet is named after the device, however
      long its name; otherwise the name fits in 31 characters and is the
      one the later writer gives. */
  lemma GuiSheetNameMeaning(folder: string, counter: nat, device: string, long: bool, single: bool)
    ensures single ==> GuiSheetName(folder, counter, device, long, single) == device
    ensures !single || |device| <= SHEET_NAME_LIMIT ==>
      GuiSheetName(folder, counter, device, long, single) == SheetName(folder, counter, device, long, single)
    ensures !single ==> |GuiSheetName(folder, counter, device, long, single)| <= SHEET_NAME_LIMIT
  {
  }

  /** A single folder whose device has a 32-character name gets a sheet
      name one character longer than a worksheet name may be; the later
      writer cuts the same name to 31 characters. */
  lemma SingleFolderNameUncut()
    ensures var device := "substrate_A_pixel_1_light_soaked";
      |GuiSheetName("run", 1, device, false, true)| == 32 > SHEET_NAME_LIMIT
      && SheetName("run", 1, device, false, true) == device[..SHEET_NAME_LIMIT]
  {
  }

  // ---------------------------------------------------------------------
  // Floating point, as far as the writer depends on it

  /** `x / y` on floats: a zero divisor gives inf or NaN. */
  function Div(x: real, y: real): (r: Value)
    ensures r.NonFinite? <==> y == 0.0
  {
    if y == 0.0 then NonFinite else Finite(x / y)
  }

  /** `a + b`: an infinite or NaN operand gives inf or NaN. */
  function Plus(a: Value, b: Value): (r: Value)
    ensures r.Finite? <==> a.Finite? && b.Finite?
  {
    if a.Finite? && b.Finite? then Finite(a.x + b.x) else NonFinite
  }

  /** `a / 2`. */
  function Half(a: Value): (r: Value)
    ensures r.Finite? <==> a.Finite?
  {
    if a.Finite? then Finite(a.x / 2.0) else NonFinite
  }

  /** `1000 * a`. */
  function Thousand(a: Value): (r: Value)
    ensures r.Finite? <==> a.Finite?
  {
    if a.Finite? then Finite(1000.0 * a.x) else NonFinite
  }

  lemma DivSum(a: real, b: real, y: real)
    requires y != 0.0
    ensures (a + b) / y == a / y + b / y
  {
  }

  // ---------------------------------------------------------------------
  // One sweep, measured inline

  /** The attributes one sweep sets: Isc in amperes, Voc, Rs, Rsh, the
      maximum power, the voltage and current density at that point, the
      efficiency and the fill factor. */
  datatype Sweep = Sweep(isc: real, voc: Value, rs: real, rsh: real, pmax: real, vmpp: real,
                         jmpp: Value, eff: Value, ff: Value)

  /** `calculate_voc_and_rs`'s fit: both branches of its conditional pick
      the samples at `k - 1` and `k`, and with `k = 0` the label -1 is the
      KeyError that nothing catches. */
  function VocFit(f: Frame, k: nat, lstsq: (seq<real>, seq<real>) -> IV.Line): (r: Result<IV.Line>)
    requires k < |f|
    ensures r.Err? <==> k == 0
    ensures r.Ok? ==> r.value == IV.LinFit([f[k - 1].v, f[k].v], [f[k - 1].i, f[k].i], lstsq)
  {
    if k == 0 then Err(KeyError("-1"))
    else Ok(IV.LinFit([f[k - 1].v, f[k].v], [f[k - 1].i, f[k].i], lstsq))
  }

  /** `-slope / intercept` with the fit's names swapped back: the line's
      zero, −a/b, with no guard against a flat line. */
  function GuiVoc(l: IV.Line): Value
  {
    Div(-l.intercept, l.slope)
  }

  /** `0.0 if isc * voc == 0 else max_power / (isc * voc)` with voc = −a/b.
      On a flat line voc is ±inf when a ≠ 0 and NaN when a = 0; isc·inf is
      never 0, so the fill factor is then ±0.0 when isc ≠ 0 and NaN
      otherwise. */
  function GuiFillFactor(pmax: real, isc: real, l: IV.Line): Value
  {
    if l.slope != 0.0 then Finite(IV.FillFactor(pmax, isc, -l.intercept / l.slope))
    else if l.intercept != 0.0 && isc != 0.0 then Finite(0.0)
    else NonFinite
  }

  /** One pass of the sweep loop of `set_worksheets`: `np.argmax` of an
      empty sweep raises ValueError, the Voc fit may raise KeyError. */
  function GuiSweep(f: Frame, area: real, light: real, lstsq: (seq<real>, seq<real>) -> IV.Line): (r: Result<Sweep>)
  {
    if f == [] then Err(ValueError("attempt to get argmax of an empty sequence"))
    else
      var p := IV.Mpp(f);
      var pmax := IV.PowerAt(p);
      var k := IV.VocIndex(f);
      var fit := IV.IscAndRsh(f, f[k].v, lstsq);
      var l :- VocFit(f, k, lstsq);
      Ok(Sweep(fit.0, GuiVoc(l), IV.Resistance(l.slope), fit.1, pmax, p.v, Div(p.i, area),
               Div(100.0 * pmax, light * area), GuiFillFactor(pmax, fit.0, l)))
  }

  /** Where no division meets a zero, the inline extraction gives what the
      later `Calculate_IV_parameters` gives: the same maximum power point,
      efficiency, fits and fill factor. */
  lemma GuiSweepAgreesWithCurrent(f: Frame, area: real, light: real, lstsq: (seq<real>, seq<real>) -> IV.Line)
    requires |f| > 0 && area != 0.0 && light != 0.0 && IV.VocIndex(f) != 0
    requires VocFit(f, IV.VocIndex(f), lstsq).value.slope != 0.0
    ensures var m := IV.SweepMetrics(f, area, light, lstsq).0;
      GuiSweep(f, area, light, lstsq)
        == Ok(Sweep(m.isc, Finite(m.voc), m.rs, m.rsh, m.pmax, m.vmpp, Finite(m.jmpp), Finite(m.eff), Finite(m.ff)))
  {
    IV.MulNonZero(light, area);
  }

  /** A flat Voc fit: this writer's Voc is inf or NaN while Rs is guarded
      to 0, where the later revision sets both to 0. An unusable Voc index
      stops this writer with the KeyError, where the later revision goes
      on with both at 0. */
  lemma GuiVocUnguarded(f: Frame, area: real, light: real, lstsq: (seq<real>, seq<real>) -> IV.Line)
    requires |f| > 0 && area != 0.0 && light != 0.0
    ensures var k := IV.VocIndex(f);
      var m := IV.SweepMetrics(f, area, light, lstsq);
      (k == 0 ==> GuiSweep(f, area, light, lstsq) == Err(KeyError("-1")) && m.1 && m.0.voc == 0.0 && m.0.rs == 0.0)
      && (k != 0 && VocFit(f, k, lstsq).value.slope == 0.0 ==>
            GuiSweep(f, area, light, lstsq).Ok? && GuiSweep(f, area, light, lstsq).value.voc == NonFinite
            && GuiSweep(f, area, light, lstsq).value.rs == 0.0 && m.0.voc == 0.0 && m.0.rs == 0.0)
  {
  }

  // ---------------------------------------------------------------------
  // The sweep loop of one device

  /** How one sweep is measured, with the device's area and light. */
  function Measure(area: real, light: real, lstsq: (seq<real>, seq<real>) -> IV.Line): Frame -> Result<Sweep>
  {
    f => GuiSweep(f, area, light, lstsq)
  }

  /** The first `n` sweeps of a device, in order, from the attributes
      `fwd` and `rev`: each is measured, a '1_Forward' sweep replaces the
      Forward attributes and a '2_Reverse' sweep the Reverse ones, and its
      rows follow the rows before it. The first failing sweep stops it. */
  function SweepPass(frames: Dict<string, Frame>, n: nat, area: real, measure: Frame -> Result<Sweep>,
                     fwd: Option<Sweep>, rev: Option<Sweep>)
    : Result<(Option<Sweep>, Option<Sweep>, seq<DataRow>)>
    requires n <= |frames|
  {
    if n == 0 then Ok((fwd, rev, []))
    else
      var prev :- SweepPass(frames, n - 1, area, measure, fwd, rev);
      var name := frames[n - 1].0;
      var s :- measure(frames[n - 1].1);
      Ok((if name == FORWARD then Some(s) else prev.0,
          if name == REVERSE then Some(s) else prev.1,
          prev.2 + RowsOf(frames[n - 1].1, area)))
  }

  /** A prefix one entry longer holds one key more. */
  lemma HasPrefix(frames: Dict<string, Frame>, n: nat, k: string)
    requires 0 < n <= |frames|
    ensures Has(frames[..n], k) <==> Has(frames[..n - 1], k) || frames[n - 1].0 == k
  {
    var a, b := Keys(frames[..n]), Keys(frames[..n - 1]);
    if k in a {
      var j :| 0 <= j < |a| && a[j] == k;
      if j < n - 1 {
        assert b[j] == k;
      }
    }
    if k in b {
      var j :| 0 <= j < |b| && b[j] == k;
      assert a[j] == k;
    }
    if frames[n - 1].0 == k {
      assert a[n - 1] == k;
    }
  }

  /** The loop's outcome and rows do not depend on the attributes it
      starts from, and neither do the Forward and Reverse attributes once
      a sweep of that name was measured. */
  lemma {:induction false} SweepPassStart(frames: Dict<string, Frame>, n: nat, area: real, measure: Frame -> Result<Sweep>,
                                          f1: Option<Sweep>, r1: Option<Sweep>, f2: Option<Sweep>, r2: Option<Sweep>)
    requires n <= |frames|
    ensures var a, b := SweepPass(frames, n, area, measure, f1, r1), SweepPass(frames, n, area, measure, f2, r2);
      a.Ok? == b.Ok? && (a.Err? ==> a.error == b.error)
    ensures var a, b := SweepPass(frames, n, area, measure, f1, r1), SweepPass(frames, n, area, measure, f2, r2);
      a.Ok? ==>
        a.value.2 == b.value.2
        && (Has(frames[..n], FORWARD) ==> a.value.0.Some? && a.value.0 == b.value.0)
        && (!Has(frames[..n], FORWARD) ==> a.value.0 == f1 && b.value.0 == f2)
        && (Has(frames[..n], REVERSE) ==> a.value.1.Some? && a.value.1 == b.value.1)
        && (!Has(frames[..n], REVERSE) ==> a.value.1 == r1 && b.value.1 == r2)
  {
    if n > 0 {
      SweepPassStart(frames, n - 1, area, measure, f1, r1, f2, r2);
      HasPrefix(frames, n, FORWARD);
      HasPrefix(frames, n, REVERSE);
    } else {
      assert frames[..0] == [];
    }
  }

  /** The loop succeeds exactly when every sweep can be measured, and
      then writes a row for every sample of every sweep, in order. */
  lemma {:induction false} SweepPassMeaning(frames: Dict<string, Frame>, n: nat, area: real, measure: Frame -> Result<Sweep>,
                                            fwd: Option<Sweep>, rev: Option<Sweep>)
    requires n <= |frames|
    ensures SweepPass(frames, n, area, measure, fwd, rev).Ok? <==>
      forall k :: 0 <= k < n ==> measure(frames[k].1).Ok?
    ensures SweepPass(frames, n, area, measure, fwd, rev).Ok? ==>
      SweepPass(frames, n, area, measure, fwd, rev).value.2 == RowsOf(AllSamples(frames[..n]), area)
  {
    if n > 0 {
      SweepPassMeaning(frames, n - 1, area, measure, fwd, rev);
      AllSamplesSnoc(frames, n);
      PW.RowsOfConcat(AllSamples(frames[..n - 1]), frames[n - 1].1, area);
    } else {
      assert frames[..0] == [];
    }
  }

  /** In a sweep table with distinct names, the Forward attributes end up
      holding the '1_Forward' sweep's figures and the Reverse ones the
      '2_Reverse' sweep's. */
  lemma {:induction false} SweepPassReads(frames: Dict<string, Frame>, n: nat, area: real, measure: Frame -> Result<Sweep>,
                                          fwd: Option<Sweep>, rev: Option<Sweep>)
    requires Valid(frames) && n <= |frames| && SweepPass(frames, n, area, measure, fwd, rev).Ok?
    ensures var p := SweepPass(frames, n, area, measure, fwd, rev).value;
      var f, r := Lookup(frames[..n], FORWARD), Lookup(frames[..n], REVERSE);
      (f.None? ==> p.0 == fwd) && (r.None? ==> p.1 == rev)
      && (f.Some? ==> measure(f.value).Ok? && p.0 == Some(measure(f.value).value))
      && (r.Some? ==> measure(r.value).Ok? && p.1 == Some(measure(r.value).value))
  {
    if n > 0 {
      SweepPassReads(frames, n - 1, area, measure, fwd, rev);
      LookupPrefix(frames, n, FORWARD);
      LookupPrefix(frames, n, REVERSE);
    } else {
      assert frames[..0] == [];
    }
  }

  /** Once a sweep fails, the later ones are never measured. */
  lemma {:induction false} SweepPassStaysFailed(frames: Dict<string, Frame>, m: nat, n: nat, area: real,
                                                measure: Frame -> Result<Sweep>, fwd: Option<Sweep>, rev: Option<Sweep>)
    requires m <= n <= |frames| && SweepPass(frames, m, area, measure, fwd, rev).Err?
    ensures SweepPass(frames, n, area, measure, fwd, rev) == SweepPass(frames, m, area, measure, fwd, rev)
    decreases n - m
  {
    if m < n {
      SweepPassStaysFailed(frames, m, n - 1, area, measure, fwd, rev);
    }
  }

  /** One sweep more of a loop that has gone well so far. */
  lemma SweepPassNext(frames: Dict<string, Frame>, k: nat, area: real, measure: Frame -> Result<Sweep>,
                      fwd: Option<Sweep>, rev: Option<Sweep>, done: (Option<Sweep>, Option<Sweep>, seq<DataRow>))
    requires k < |frames| && SweepPass(frames, k, area, measure, fwd, rev) == Ok(done)
    ensures var s := measure(frames[k].1);
      SweepPass(frames, k + 1, area, measure, fwd, rev) ==
        if s.Err? then Err(s.error)
        else Ok((if frames[k].0 == FORWARD then Some(s.value) else done.0,
                 if frames[k].0 == REVERSE then Some(s.value) else done.1,
                 done.2 + RowsOf(frames[k].1, area)))
  {
  }

  // ---------------------------------------------------------------------
  // `set_headers` and `write_parameters`

  /** The parameter names down column E, rows 2 to 13. */
  const SHEET_LABELS: seq<string> := [
    "Isc, mA", "Voc, V", "Ƞ", "FF", "Max power, W", "Short-circuit current density, mA/cm²)",
    "Voltage at MPP (V)", "Current density at MPP (mA/cm²)", "Series resistance, Rs (ohm)",
    "Shunt resistance, Rsh (ohm)", "Active area, cm²", "Light Intensity, W/cm²"]

  /** `set_headers`: the data columns' titles, the device name and the
      parameter names down column E, 'Values' across F to H and the
      directions below it. */
  function GuiHeaderWrites(device: string): seq<Write>
  {
    [Write(0, 0, Str("J, mA/cm²")), Write(0, 1, Str("V, V")), Write(0, 2, Str("P, W")),
     Write(0, 4, Str(device)), Write(1, 4, Str("Parameters"))]
    + seq(|SHEET_LABELS|, k requires 0 <= k < |SHEET_LABELS| => Write(k + 2, 4, Str(SHEET_LABELS[k])))
    + CenterAcross(0, VALUE_COLUMN, Str("Values"))
    + DirectionRow(VALUE_COLUMN)
  }

  /** One metric in its row: Reverse in F, Forward in G, Average in H. */
  function Triple(row: nat, reverse: Value, forward: Value, average: Value): seq<Write>
  {
    [Write(row, VALUE_COLUMN, Number(reverse)), Write(row, VALUE_COLUMN + 1, Number(forward)),
     Write(row, VALUE_COLUMN + 2, Number(average))]
  }

  /** A metric's row and its Reverse, Forward and Average values. */
  type Row3 = (nat, Value, Value, Value)

  /** The triples in order, each row after the rows before it. */
  function Triples(ts: seq<Row3>): seq<Write>
  {
    if ts == [] then []
    else
      var t := ts[|ts| - 1];
      Triples(ts[..|ts| - 1]) + Triple(t.0, t.1, t.2, t.3)
  }

  /** `write_parameters`, in its order of writes: the area and the light
      intensity across F to H, then each metric's Reverse, Forward and
      Average values, the current densities scaled by 1000, and last Isc
      and Voc. */
  function ParameterCells(fwd: Sweep, rev: Sweep, area: real, light: real): seq<Write>
  {
    CenterAcross(12, VALUE_COLUMN, Number(Finite(area)))
    + CenterAcross(13, VALUE_COLUMN, Number(Finite(light)))
    + Triples(MetricTriples(fwd, rev, area))
    + IscVocCells(fwd, rev)
  }

  /** The eight metrics `write_parameters` writes as triples, in its order. */
  function MetricTriples(fwd: Sweep, rev: Sweep, area: real): seq<Row3>
  {
    [(6, Finite(rev.pmax), Finite(fwd.pmax), Finite((rev.pmax + fwd.pmax) / 2.0)),
     (4, rev.eff, fwd.eff, Half(Plus(rev.eff, fwd.eff))),
     (5, rev.ff, fwd.ff, Half(Plus(rev.ff, fwd.ff))),
     (7, Div(1000.0 * rev.isc, area), Div(1000.0 * fwd.isc, area), Div(1000.0 * (fwd.isc + rev.isc), area)),
     (8, Finite(rev.vmpp), Finite(fwd.vmpp), Finite((rev.vmpp + fwd.vmpp) / 2.0)),
     (9, Thousand(rev.jmpp), Thousand(fwd.jmpp), Half(Thousand(Plus(rev.jmpp, fwd.jmpp)))),
     (10, Finite(rev.rs), Finite(fwd.rs), Finite((fwd.rs + rev.rs) / 2.0)),
     (11, Finite(rev.rsh), Finite(fwd.rsh), Finite((rev.rsh + fwd.rsh) / 2.0))]
  }

  /** Isc and Voc, written last: Reverse, then Forward, then the mean. */
  function IscVocCells(fwd: Sweep, rev: Sweep): seq<Write>
  {
    [Write(2, VALUE_COLUMN, Number(Finite(rev.isc))), Write(3, VALUE_COLUMN, Number(rev.voc)),
     Write(2, VALUE_COLUMN + 1, Number(Finite(fwd.isc))), Write(3, VALUE_COLUMN + 1, Number(fwd.voc)),
     Write(2, VALUE_COLUMN + 2, Number(Finite((fwd.isc + rev.isc) / 2.0))),
     Write(3, VALUE_COLUMN + 2, Number(Half(Plus(rev.voc, fwd.voc))))]
  }

  /** `write_parameters` on the attributes: with either direction never
      measured, adding its `None` raises TypeError. */
  function ParametersOf(fwd: Option<Sweep>, rev: Option<Sweep>, area: real, light: real): Result<seq<Write>>
  {
    if rev.None? || fwd.None? then Err(TypeError("unsupported operand type(s) for +: 'NoneType'"))
    else Ok(ParameterCells(fwd.value, rev.value, area, light))
  }

  /** The metrics of a device sheet. */
  datatype Metric = Isc | Voc | Eff | FF | Pmax | Jsc | Vmpp | Jmpp | Rs | Rsh

  /** The row whose column E label names the metric. */
  function MetricRow(m: Metric): (row: nat)
    ensures 2 <= row < 12
  {
    match m
    case Isc => 2
    case Voc => 3
    case Eff => 4
    case FF => 5
    case Pmax => 6
    case Jsc => 7
    case Vmpp => 8
    case Jmpp => 9
    case Rs => 10
    case Rsh => 11
  }

  /** What one direction's column shows for a metric: the attribute, with
      Isc turned into mA/cm² and the current density at MPP into mA. */
  function Reading(s: Sweep, m: Metric, area: real): Value
  {
    match m
    case Isc => Finite(s.isc)
    case Voc => s.voc
    case Eff => s.eff
    case FF => s.ff
    case Pmax => Finite(s.pmax)
    case Jsc => Div(1000.0 * s.isc, area)
    case Vmpp => Finite(s.vmpp)
    case Jmpp => Thousand(s.jmpp)
    case Rs => Finite(s.rs)
    case Rsh => Finite(s.rsh)
  }

  /** A cell every write to which writes `c` holds `c`. */
  lemma {:induction false} CellAtSole(ws: seq<Write>, row: nat, col: nat, c: Content)
    requires Write(row, col, c) in ws
    requires forall w :: w in ws && w.row == row && w.col == col ==> w.content == c
    ensures CellAt(ws, row, col) == Some(c)
  {
    var n := |ws|;
    if ws[n - 1].row != row || ws[n - 1].col != col {
      var init := ws[..n - 1];
      assert ws == init + [ws[n - 1]];
      CellAtSole(init, row, col, c);
    }
  }

  /** A triple fills its row's three value cells and no other row. */
  lemma TripleCells(row: nat, reverse: Value, forward: Value, average: Value)
    ensures CellAt(Triple(row, reverse, forward, average), row, VALUE_COLUMN) == Some(Number(reverse))
    ensures CellAt(Triple(row, reverse, forward, average), row, VALUE_COLUMN + 1) == Some(Number(forward))
    ensures CellAt(Triple(row, reverse, forward, average), row, VALUE_COLUMN + 2) == Some(Number(average))
    ensures forall w :: w in Triple(row, reverse, forward, average) ==> w.row == row
  {
    var ws := Triple(row, reverse, forward, average);
    assert CellAt(ws, row, VALUE_COLUMN) == CellAt(ws[..2], row, VALUE_COLUMN);
    assert CellAt(ws, row, VALUE_COLUMN + 1) == CellAt(ws[..2], row, VALUE_COLUMN + 1);
    assert CellAt(ws[..2], row, VALUE_COLUMN) == CellAt(ws[..2][..1], row, VALUE_COLUMN);
    assert ws[..2][..1] == [Write(row, VALUE_COLUMN, Number(reverse))];
  }

  /** Triple i's row, when no other triple has it, holds triple i's values. */
  lemma {:induction false} TriplesAt(ts: seq<Row3>, i: nat)
    requires i < |ts| && forall k :: 0 <= k < |ts| && k != i ==> ts[k].0 != ts[i].0
    ensures CellAt(Triples(ts), ts[i].0, VALUE_COLUMN) == Some(Number(ts[i].1))
    ensures CellAt(Triples(ts), ts[i].0, VALUE_COLUMN + 1) == Some(Number(ts[i].2))
    ensures CellAt(Triples(ts), ts[i].0, VALUE_COLUMN + 2) == Some(Number(ts[i].3))
  {
    var n := |ts| - 1;
    var init, t, row := ts[..n], ts[n], ts[i].0;
    var last := Triple(t.0, t.1, t.2, t.3);
    assert Triples(ts) == Triples(init) + last;
    CellAtConcat(Triples(init), last, row, VALUE_COLUMN);
    CellAtConcat(Triples(init), last, row, VALUE_COLUMN + 1);
    CellAtConcat(Triples(init), last, row, VALUE_COLUMN + 2);
    TripleCells(t.0, t.1, t.2, t.3);
    if i != n {
      assert forall k :: 0 <= k < |init| ==> init[k] == ts[k];
      TriplesAt(init, i);
      CellAtUntouched(last, row, VALUE_COLUMN);
      CellAtUntouched(last, row, VALUE_COLUMN + 1);
      CellAtUntouched(last, row, VALUE_COLUMN + 2);
    }
  }

  /** The triples write no row none of them names. */
  lemma {:induction false} TriplesMiss(ts: seq<Row3>, row: nat)
    requires forall k :: 0 <= k < |ts| ==> ts[k].0 != row
    ensures forall w :: w in Triples(ts) ==> w.row != row
  {
    if ts != [] {
      var n := |ts| - 1;
      assert forall k :: 0 <= k < n ==> ts[..n][k] == ts[k];
      TriplesMiss(ts[..n], row);
    }
  }

  /** Where each metric's triple sits in `MetricTriples`. */
  function TripleIndex(m: Metric): nat
    requires !m.Isc? && !m.Voc?
  {
    match m
    case Pmax => 0
    case Eff => 1
    case FF => 2
    case Jsc => 3
    case Vmpp => 4
    case Jmpp => 5
    case Rs => 6
    case Rsh => 7
  }

  /** The triple of a metric other than Isc and Voc holds its two
      readings, and the mean of the two, or for the short-circuit current
      density their sum. */
  lemma MetricTripleHolds(fwd: Sweep, rev: Sweep, area: real, m: Metric)
    requires !m.Isc? && !m.Voc?
    ensures var t, r, f := MetricTriples(fwd, rev, area)[TripleIndex(m)], Reading(rev, m, area), Reading(fwd, m, area);
      t == (MetricRow(m), r, f, if m == Jsc then Plus(r, f) else Half(Plus(r, f)))
  {
    if m == Jsc && area != 0.0 {
      DivSum(1000.0 * rev.isc, 1000.0 * fwd.isc, area);
    }
  }

  /** A row neither `a` nor `c` writes holds, in `a + b + c`, what `b` left. */
  lemma MiddleOwns(a: seq<Write>, b: seq<Write>, c: seq<Write>, row: nat, col: nat)
    requires forall w :: w in a ==> w.row != row
    requires forall w :: w in c ==> w.row != row
    ensures CellAt(a + b + c, row, col) == CellAt(b, row, col)
  {
    CellOwned(a + b, c, row, col);
    CellOwnedLast(a, b, row, col);
  }

  /** A metric row's cells hold what its triple wrote: neither the area
      and light rows before it nor the Isc and Voc writes after it touch
      that row. */
  lemma MetricRowCells(fwd: Sweep, rev: Sweep, area: real, light: real, m: Metric, c: nat)
    requires !m.Isc? && !m.Voc?
    ensures CellAt(ParameterCells(fwd, rev, area, light), MetricRow(m), c)
      == CellAt(Triples(MetricTriples(fwd, rev, area)), MetricRow(m), c)
  {
    var head := CenterAcross(12, VALUE_COLUMN, Number(Finite(area))) + CenterAcross(13, VALUE_COLUMN, Number(Finite(light)));
    MiddleOwns(head, Triples(MetricTriples(fwd, rev, area)), IscVocCells(fwd, rev), MetricRow(m), c);
  }

  /** Isc and Voc rows hold the last writes, the Isc and Voc ones. */
  lemma IscVocRowCells(fwd: Sweep, rev: Sweep, area: real, light: real, m: Metric, c: nat)
    requires m.Isc? || m.Voc?
    ensures CellAt(ParameterCells(fwd, rev, area, light), MetricRow(m), c) == CellAt(IscVocCells(fwd, rev), MetricRow(m), c)
  {
    var head := CenterAcross(12, VALUE_COLUMN, Number(Finite(area))) + CenterAcross(13, VALUE_COLUMN, Number(Finite(light)));
    var ts := MetricTriples(fwd, rev, area);
    var row, tail := MetricRow(m), IscVocCells(fwd, rev);
    TriplesMiss(ts, row);
    CellOwnedLast(head + Triples(ts), tail, row, c);
  }

  /** The Isc and Voc writes leave each of the two rows holding the
      Reverse reading, the Forward reading and their mean. */
  lemma IscVocAt(fwd: Sweep, rev: Sweep, area: real, m: Metric)
    requires m.Isc? || m.Voc?
    ensures var tail, r, f := IscVocCells(fwd, rev), Reading(rev, m, area), Reading(fwd, m, area);
      CellAt(tail, MetricRow(m), VALUE_COLUMN) == Some(Number(r))
      && CellAt(tail, MetricRow(m), VALUE_COLUMN + 1) == Some(Number(f))
      && CellAt(tail, MetricRow(m), VALUE_COLUMN + 2) == Some(Number(Half(Plus(r, f))))
  {
    var tail, row := IscVocCells(fwd, rev), MetricRow(m);
    var r, f := Reading(rev, m, area), Reading(fwd, m, area);
    CellAtSole(tail, row, VALUE_COLUMN, Number(r));
    CellAtSole(tail, row, VALUE_COLUMN + 1, Number(f));
    CellAtSole(tail, row, VALUE_COLUMN + 2, Number(Half(Plus(r, f))));
  }

  /** Each metric's row holds the Reverse reading in F and the Forward
      reading in G; its H cell holds their mean for every metric but the
      short-circuit current density, whose 'Average' is their sum. */
  lemma ParameterCellsHold(fwd: Sweep, rev: Sweep, area: real, light: real, m: Metric)
    ensures var cells, r, f := ParameterCells(fwd, rev, area, light), Reading(rev, m, area), Reading(fwd, m, area);
      CellAt(cells, MetricRow(m), VALUE_COLUMN) == Some(Number(r))
      && CellAt(cells, MetricRow(m), VALUE_COLUMN + 1) == Some(Number(f))
      && CellAt(cells, MetricRow(m), VALUE_COLUMN + 2) == Some(Number(if m == Jsc then Plus(r, f) else Half(Plus(r, f))))
  {
    var row, tail := MetricRow(m), IscVocCells(fwd, rev);
    var r, f := Reading(rev, m, area), Reading(fwd, m, area);
    if m.Isc? || m.Voc? {
      IscVocAt(fwd, rev, area, m);
      IscVocRowCells(fwd, rev, area, light, m, VALUE_COLUMN);
      IscVocRowCells(fwd, rev, area, light, m, VALUE_COLUMN + 1);
      IscVocRowCells(fwd, rev, area, light, m, VALUE_COLUMN + 2);
    } else {
      MetricTripleHolds(fwd, rev, area, m);
      TriplesAt(MetricTriples(fwd, rev, area), TripleIndex(m));
      MetricRowCells(fwd, rev, area, light, m, VALUE_COLUMN);
      MetricRowCells(fwd, rev, area, light, m, VALUE_COLUMN + 1);
      MetricRowCells(fwd, rev, area, light, m, VALUE_COLUMN + 2);
    }
  }

  /** A row neither the metric triples nor the Isc and Voc writes touch
      holds, in column F, what the writes before them left. */
  lemma HeadCell(head: seq<Write>, ts: seq<Row3>, tail: seq<Write>, row: nat)
    requires forall k :: 0 <= k < |ts| ==> ts[k].0 != row
    requires forall w :: w in tail ==> w.row != row
    ensures CellAt(head + Triples(ts) + tail, row, VALUE_COLUMN) == CellAt(head, row, VALUE_COLUMN)
  {
    TriplesMiss(ts, row);
    CellOwned(head + Triples(ts), tail, row, VALUE_COLUMN);
    CellOwned(head, Triples(ts), row, VALUE_COLUMN);
  }

  /** The metric triples and the Isc and Voc writes all lie above row 12. */
  lemma MetricRowsAbove(fwd: Sweep, rev: Sweep, area: real)
    ensures forall k :: 0 <= k < |MetricTriples(fwd, rev, area)| ==> MetricTriples(fwd, rev, area)[k].0 < 12
    ensures forall w :: w in IscVocCells(fwd, rev) ==> w.row < 4
  {
  }

  /** A value centred across a row fills its first cell and no other row. */
  lemma CenterAcrossAt(row: nat, c: Content)
    ensures CellAt(CenterAcross(row, VALUE_COLUMN, c), row, VALUE_COLUMN) == Some(c)
    ensures forall w :: w in CenterAcross(row, VALUE_COLUMN, c) ==> w.row == row
  {
    var ws := CenterAcross(row, VALUE_COLUMN, c);
    assert CellAt(ws, row, VALUE_COLUMN) == CellAt(ws[..2], row, VALUE_COLUMN);
    assert CellAt(ws[..2], row, VALUE_COLUMN) == CellAt(ws[..2][..1], row, VALUE_COLUMN);
    assert ws[..2][..1] == [Write(row, VALUE_COLUMN, c)];
  }

  /** The area and the light intensity fill F13 and F14. */
  lemma ParameterCellsSettings(fwd: Sweep, rev: Sweep, area: real, light: real)
    ensures CellAt(ParameterCells(fwd, rev, area, light), 12, VALUE_COLUMN) == Some(Number(Finite(area)))
    ensures CellAt(ParameterCells(fwd, rev, area, light), 13, VALUE_COLUMN) == Some(Number(Finite(light)))
  {
    var a, b := CenterAcross(12, VALUE_COLUMN, Number(Finite(area))), CenterAcross(13, VALUE_COLUMN, Number(Finite(light)));
    var ts, tail := MetricTriples(fwd, rev, area), IscVocCells(fwd, rev);
    MetricRowsAbove(fwd, rev, area);
    HeadCell(a + b, ts, tail, 12);
    HeadCell(a + b, ts, tail, 13);
    CenterAcrossAt(12, Number(Finite(area)));
    CenterAcrossAt(13, Number(Finite(light)));
    CellOwned(a, b, 12, VALUE_COLUMN);
    CellOwnedLast(a, b, 13, VALUE_COLUMN);
  }

  /** Two equal short-circuit currents of 1 mA on 1 cm²: Reverse and
      Forward both show 1 mA/cm², the 'Average' shows 2. */
  lemma JscAverageDoubled(fwd: Sweep, rev: Sweep)
    requires fwd.isc == 0.001 && rev.isc == 0.001
    ensures var cells := ParameterCells(fwd, rev, 1.0, 1.0);
      CellAt(cells, 7, VALUE_COLUMN) == Some(Number(Finite(1.0)))
      && CellAt(cells, 7, VALUE_COLUMN + 1) == Some(Number(Finite(1.0)))
      && CellAt(cells, 7, VALUE_COLUMN + 2) == Some(Number(Finite(2.0)))
  {
    ParameterCellsHold(fwd, rev, 1.0, 1.0, Jsc);
  }

  // ---------------------------------------------------------------------
  // One device, one folder, the workbook

  /** One device of `set_worksheets`: its sheet name, the offsets stored
      back into it, then its sheet's cells and rows. A missing sweep stops
      it first. */
  function GuiDeviceSheet(folder: string, counter: nat, name: string, dev: Device, long: bool, single: bool,
                          lstsq: (seq<real>, seq<real>) -> IV.Line): Result<(Device, Sheet)>
  {
    var sheetName := GuiSheetName(folder, counter, name, long, single);
    var offsets :- OffsetsOf(dev.data);
    var made :- GuiDeviceCells(name, dev, lstsq);
    Ok((dev.(stamp := Some(Stamp(sheetName, offsets))), Sheet(sheetName, made.0, made.1, [])))
  }

  /** The sheet's cells and rows: the headers, the area and light intensity
      read into the attributes, the sweeps measured and written, and the
      parameters. A missing area or light intensity, an unmeasurable sweep
      or a never-set attribute stops it, in that order. */
  function GuiDeviceCells(name: string, dev: Device, lstsq: (seq<real>, seq<real>) -> IV.Line)
    : Result<(seq<Write>, seq<DataRow>)>
  {
    if dev.area.None? then Err(KeyError("Active area"))
    else if dev.light.None? then Err(KeyError("Light Intensity"))
    else
      var area, light := dev.area.value, dev.light.value;
      var pass :- SweepPass(dev.data, |dev.data|, area, Measure(area, light, lstsq), None, None);
      var cells :- ParametersOf(pass.0, pass.1, area, light);
      Ok((GuiHeaderWrites(name) + cells, pass.2))
  }

  /** With both sweeps present, the cells are written exactly when the
      area and light intensity are there and every sweep can be measured:
      the attributes `write_parameters` adds are then always set. */
  lemma GuiDeviceCellsOk(name: string, dev: Device, lstsq: (seq<real>, seq<real>) -> IV.Line)
    requires Has(dev.data, FORWARD) && Has(dev.data, REVERSE)
    ensures GuiDeviceCells(name, dev, lstsq).Ok? <==>
      dev.area.Some? && dev.light.Some?
      && forall k :: 0 <= k < |dev.data| ==> GuiSweep(dev.data[k].1, dev.area.value, dev.light.value, lstsq).Ok?
  {
    if dev.area.Some? && dev.light.Some? {
      var area, light := dev.area.value, dev.light.value;
      var measure := Measure(area, light, lstsq);
      var data := dev.data;
      PrefixAll(data);
      SweepPassMeaning(data, |data|, area, measure, None, None);
      if SweepPass(data, |data|, area, measure, None, None).Ok? {
        SweepsSetAttributes(name, dev, lstsq);
        forall k | 0 <= k < |data|
          ensures GuiSweep(data[k].1, area, light, lstsq).Ok?
        {
          assert measure(data[k].1).Ok?;
        }
      } else {
        var k :| 0 <= k < |data| && !measure(data[k].1).Ok?;
        assert !GuiSweep(data[k].1, area, light, lstsq).Ok?;
      }
    }
  }

  /** With both sweeps present and every sweep measured, both attributes
      are set, so `write_parameters` goes through. */
  lemma SweepsSetAttributes(name: string, dev: Device, lstsq: (seq<real>, seq<real>) -> IV.Line)
    requires Has(dev.data, FORWARD) && Has(dev.data, REVERSE) && dev.area.Some? && dev.light.Some?
    requires SweepPass(dev.data, |dev.data|, dev.area.value, Measure(dev.area.value, dev.light.value, lstsq), None, None).Ok?
    ensures GuiDeviceCells(name, dev, lstsq).Ok?
  {
    var data := dev.data;
    PrefixAll(data);
    SweepPassStart(data, |data|, dev.area.value, Measure(dev.area.value, dev.light.value, lstsq), None, None, None, None);
  }

  /** The rows hold every sample of every sweep, in order. */
  lemma GuiDeviceCellsRows(name: string, dev: Device, lstsq: (seq<real>, seq<real>) -> IV.Line)
    requires GuiDeviceCells(name, dev, lstsq).Ok?
    ensures GuiDeviceCells(name, dev, lstsq).value.1 == RowsOf(AllSamples(dev.data), dev.area.value)
  {
    var data := dev.data;
    PrefixAll(data);
    var area, light := dev.area.value, dev.light.value;
    SweepPassMeaning(data, |data|, area, Measure(area, light, lstsq), None, None);
  }

  /** A device's sheet is written exactly when both sweeps, the area and
      the light intensity are there and every sweep can be measured. The
      device gains only its stamp, and the sheet holds a row per sample. */
  lemma GuiDeviceSheetMeaning(folder: string, counter: nat, name: string, dev: Device, long: bool, single: bool,
                              lstsq: (seq<real>, seq<real>) -> IV.Line)
    ensures GuiDeviceSheet(folder, counter, name, dev, long, single, lstsq).Ok? <==>
      OffsetsOf(dev.data).Ok? && dev.area.Some? && dev.light.Some?
      && forall k :: 0 <= k < |dev.data| ==> GuiSweep(dev.data[k].1, dev.area.value, dev.light.value, lstsq).Ok?
    ensures GuiDeviceSheet(folder, counter, name, dev, long, single, lstsq).Ok? ==>
      var r := GuiDeviceSheet(folder, counter, name, dev, long, single, lstsq).value;
      var sheetName := GuiSheetName(folder, counter, name, long, single);
      r.0 == dev.(stamp := Some(Stamp(sheetName, OffsetsOf(dev.data).value)))
      && r.1.name == sheetName && r.1.used == []
      && r.1.rows == RowsOf(AllSamples(dev.data), dev.area.value)
  {
    if OffsetsOf(dev.data).Ok? {
      GuiDeviceCellsOk(name, dev, lstsq);
      if GuiDeviceCells(name, dev, lstsq).Ok? {
        GuiDeviceCellsRows(name, dev, lstsq);
      }
    }
  }

  /** With distinct sweep names, a written sheet's parameters are those of
      its '1_Forward' and '2_Reverse' sweeps. */
  lemma GuiDeviceSheetCells(folder: string, counter: nat, name: string, dev: Device, long: bool, single: bool,
                            lstsq: (seq<real>, seq<real>) -> IV.Line)
    requires Valid(dev.data) && GuiDeviceSheet(folder, counter, name, dev, long, single, lstsq).Ok?
    ensures var r := GuiDeviceSheet(folder, counter, name, dev, long, single, lstsq).value;
      var area, light := dev.area.value, dev.light.value;
      var fwd, rev := GuiSweep(Get(dev.data, FORWARD), area, light, lstsq), GuiSweep(Get(dev.data, REVERSE), area, light, lstsq);
      fwd.Ok? && rev.Ok? && r.1.cells == GuiHeaderWrites(name) + ParameterCells(fwd.value, rev.value, area, light)
  {
    var data := dev.data;
    PrefixAll(data);
    assert GuiDeviceCells(name, dev, lstsq).Ok?;
    var area, light := dev.area.value, dev.light.value;
    SweepPassReads(data, |data|, area, Measure(area, light, lstsq), None, None);
  }

  /** The device step of the `counter`-th folder. */
  function GuiSheetOf(folder: string, counter: nat, long: bool, single: bool,
                      lstsq: (seq<real>, seq<real>) -> IV.Line): DeviceStep
  {
    (name: string, dev: Device) => GuiDeviceSheet(folder, counter, name, dev, long, single, lstsq)
  }

  /** The folder step, with the naming mode fixed for the workbook. */
  function GuiFolders(long: bool, single: bool, lstsq: (seq<real>, seq<real>) -> IV.Line): FolderStep
  {
    (folder: string, counter: nat, devs: Dict<string, Device>) =>
      FolderSheets(devs, GuiSheetOf(folder, counter, long, single, lstsq))
  }

  /** The whole of `set_worksheets` on `data`: counters from 1, long names
      judged over every folder and device first, a single folder named by
      its devices. */
  function GuiWorksheets(data: Devices, lstsq: (seq<real>, seq<real>) -> IV.Line): Result<(Devices, seq<Sheet>)>
  {
    AllSheets(data, |data|, GuiFolders(LongNameFound(data), |data| == 1, lstsq))
  }

  /** One folder's devices, each stamped under its own name with the sheet
      name this writer gives it. */
  lemma GuiFolderStamped(folder: string, counter: nat, devs: Dict<string, Device>, long: bool, single: bool,
                         lstsq: (seq<real>, seq<real>) -> IV.Line)
    requires FolderSheets(devs, GuiSheetOf(folder, counter, long, single, lstsq)).Ok?
    ensures var r := FolderSheets(devs, GuiSheetOf(folder, counter, long, single, lstsq)).value.0;
      |r| == |devs| && Keys(r) == Keys(devs)
      && forall j :: 0 <= j < |r| ==>
           r[j].1.stamp.Some? && r[j].1.stamp.value.sheetName == GuiSheetName(folder, counter, devs[j].0, long, single)
  {
    var make := GuiSheetOf(folder, counter, long, single, lstsq);
    var r := FolderSheets(devs, make).value.0;
    FolderSheetsMeaning(devs, make);
    forall j | 0 <= j < |devs|
      ensures r[j].0 == devs[j].0 && r[j].1.stamp.Some?
      ensures r[j].1.stamp.value.sheetName == GuiSheetName(folder, counter, devs[j].0, long, single)
    {
      GuiDeviceSheetMeaning(folder, counter, devs[j].0, devs[j].1, long, single, lstsq);
    }
  }

  /** Folder i after a successful `set_worksheets`: its name, its device
      names, and each device's stamp naming its sheet. */
  lemma GuiStampedFolder(data: Devices, lstsq: (seq<real>, seq<real>) -> IV.Line, i: nat)
    requires GuiWorksheets(data, lstsq).Ok? && i < |data|
    ensures var stamped := GuiWorksheets(data, lstsq).value.0;
      |stamped| == |data| && stamped[i].0 == data[i].0 && Keys(stamped[i].1) == Keys(data[i].1)
      && |stamped[i].1| == |data[i].1|
      && forall j :: 0 <= j < |data[i].1| ==>
           stamped[i].1[j].1.stamp.Some?
           && stamped[i].1[j].1.stamp.value.sheetName
                == GuiSheetName(data[i].0, i + 1, data[i].1[j].0, LongNameFound(data), |data| == 1)
  {
    var long, single := LongNameFound(data), |data| == 1;
    AllSheetsDevices(data, |data|, GuiFolders(long, single, lstsq));
    GuiFolderStamped(data[i].0, i + 1, data[i].1, long, single, lstsq);
  }

  /** After a successful `set_worksheets` every device of every folder, and
      only those, carries the sheet name of its folder's counter or name. */
  lemma GuiWorksheetsStampAll(data: Devices, lstsq: (seq<real>, seq<real>) -> IV.Line)
    requires GuiWorksheets(data, lstsq).Ok?
    ensures var stamped := GuiWorksheets(data, lstsq).value.0;
      AllStamped(stamped) && |stamped| == |data|
      && forall i :: 0 <= i < |data| ==> stamped[i].0 == data[i].0 && Keys(stamped[i].1) == Keys(data[i].1)
  {
    var stamped := GuiWorksheets(data, lstsq).value.0;
    forall i | 0 <= i < |data|
      ensures |stamped| == |data| && stamped[i].0 == data[i].0 && Keys(stamped[i].1) == Keys(data[i].1)
      ensures forall j :: 0 <= j < |stamped[i].1| ==> stamped[i].1[j].1.stamp.Some?
    {
      GuiStampedFolder(data, lstsq, i);
    }
    AllSheetsDevices(data, |data|, GuiFolders(LongNameFound(data), |data| == 1, lstsq));
  }

  // ---------------------------------------------------------------------
  // `fill_tables`

  /** `write_table_headers`: the thirteen column names of every table. */
  const GUI_HEADERS: seq<string> := [
    "Label", "Scan direction", "Efficiency (%)", "Short-circuit current density (mA/cm²)",
    "Open circuit voltage (V)", "Fill factor", "Maximum power (W)", "Voltage at MPP (V)",
    "Current density at MPP (mA/cm²)", "Series resistance, Rs (ohm)", "Shunt resistance, Rsh (ohm)",
    "Active area, (cm²)", "Device order"]

  /** The 0-based sheet rows that table columns 1 to 10 refer to: the
      formulas `{L}2`, `{L}5`, `{L}8`, `{L}4`, `{L}6`, `{L}7`, `{L}9`,
      `{L}10`, `{L}11` and `{L}12`. */
  const FORMULA_ROWS: seq<nat> := [1, 4, 7, 3, 5, 6, 8, 9, 10, 11]

  /** The header row. */
  function GuiHeaderRow(): seq<Content>
  {
    seq(|GUI_HEADERS|, c requires 0 <= c < |GUI_HEADERS| => Str(GUI_HEADERS[c]))
  }

  /** `write_table_rows`: the sheet's name, ten formulas into the sweep
      column `col`, the area from F13 and the row's own index. */
  function GuiTableRow(rowIndex: nat, sheet: string, col: nat): seq<Content>
  {
    [Str(sheet)]
    + seq(|FORMULA_ROWS|, k requires 0 <= k < |FORMULA_ROWS| => Ref(sheet, col, FORMULA_ROWS[k]))
    + [Ref(sheet, VALUE_COLUMN, 12), Number(Finite(rowIndex as real))]
  }

  /** One device's rows, one per sweep column, numbered from `start`. */
  function GuiDeviceRows(start: nat, sheet: string, cols: seq<nat>): seq<seq<Content>>
  {
    seq(|cols|, s requires 0 <= s < |cols| => GuiTableRow(start + s, sheet, cols[s]))
  }

  /** The rows below the header, devices in order, `row_index` counting on
      from 1 across the devices. */
  function GuiTableBody(names: seq<string>, cols: seq<nat>): seq<seq<Content>>
  {
    if names == [] then []
    else
      var prev := GuiTableBody(names[..|names| - 1], cols);
      prev + GuiDeviceRows(1 + |prev|, names[|names| - 1], cols)
  }

  /** One table: the header row and the device rows. */
  function GuiTable(names: seq<string>, cols: seq<nat>): PT.Grid
  {
    [GuiHeaderRow()] + GuiTableBody(names, cols)
  }

  /** `fill_tables`: the 'Tabel_Total', 'Tabel_Forward', 'Tabel_Reverse'
      and 'Tabel_Average' sheets, reading G then F, G, F and H. */
  function GuiTables(data: Devices): Result<seq<PT.Grid>>
  {
    var names :- PT.SheetNames(data);
    Ok(seq(|PT.TABLES|, t requires 0 <= t < |PT.TABLES| => GuiTable(names, PT.TABLES[t])))
  }

  /** The whole constructor: the stamped devices, their sheets, the tables. */
  function GuiWorkbook(data: Devices, lstsq: (seq<real>, seq<real>) -> IV.Line): Result<(Devices, seq<Sheet>, seq<PT.Grid>)>
  {
    var w :- GuiWorksheets(data, lstsq);
    var tables :- GuiTables(w.0);
    Ok((w.0, w.1, tables))
  }

  /** The tables never fail once the sheets are written. */
  lemma GuiWorkbookOk(data: Devices, lstsq: (seq<real>, seq<real>) -> IV.Line)
    ensures GuiWorkbook(data, lstsq).Ok? <==> GuiWorksheets(data, lstsq).Ok?
  {
    if GuiWorksheets(data, lstsq).Ok? {
      GuiWorksheetsStampAll(data, lstsq);
      PT.SheetNamesOk(GuiWorksheets(data, lstsq).value.0);
    }
  }

  /** Every device has one row per sweep column, below the header. */
  lemma {:induction false} GuiTableBodyLength(names: seq<string>, cols: seq<nat>)
    ensures |GuiTableBody(names, cols)| == |names| * |cols|
  {
    if names != [] {
      var n := |names| - 1;
      GuiTableBodyLength(names[..n], cols);
      assert n * |cols| + |cols| == (n + 1) * |cols|;
    }
  }

  /** Device d's row for sweep column s sits at d·|cols| + s below the
      header and reads d's sheet in that column. */
  lemma {:induction false} GuiTableBodyAt(names: seq<string>, cols: seq<nat>, d: nat, s: nat)
    requires d < |names| && s < |cols|
    ensures d * |cols| + s < |GuiTableBody(names, cols)|
    ensures GuiTableBody(names, cols)[d * |cols| + s] == GuiTableRow(1 + d * |cols| + s, names[d], cols[s])
  {
    var n := |names| - 1;
    GuiTableBodyLength(names[..n], cols);
    GuiTableBodyLength(names, cols);
    if d < n {
      GuiTableBodyAt(names[..n], cols, d, s);
      PT.MulStep(d, n, |cols|);
    }
  }

  /** The 'Device order' column of every row below the header holds that
      row's own index, under the header 'Device order'. */
  lemma {:induction false} GuiTableOrder(names: seq<string>, cols: seq<nat>, r: nat)
    requires 1 <= r < |GuiTable(names, cols)|
    ensures |GuiTable(names, cols)[r]| == |GUI_HEADERS|
    ensures GuiTable(names, cols)[0][12] == Str("Device order")
    ensures GuiTable(names, cols)[r][12] == Number(Finite(r as real))
  {
    var n := |names| - 1;
    var prev := GuiTableBody(names[..n], cols);
    GuiTableBodyLength(names[..n], cols);
    if r - 1 < |prev| {
      GuiTableOrder(names[..n], cols, r);
    }
  }

  // ---------------------------------------------------------------------
  // What the tables read

  /** The metrics of table columns 2 to 10, in order. */
  const TABLE_METRICS: seq<Metric> := [Eff, Jsc, Voc, FF, Pmax, Vmpp, Jmpp, Rs, Rsh]

  /** What a device sheet shows for a metric in column F (Reverse), G
      (Forward) or H (Average). */
  function DirectionValue(fwd: Sweep, rev: Sweep, area: real, m: Metric, col: nat): Value
    requires VALUE_COLUMN <= col < VALUE_COLUMN + 3
  {
    var r, f := Reading(rev, m, area), Reading(fwd, m, area);
    if col == VALUE_COLUMN then r
    else if col == VALUE_COLUMN + 1 then f
    else if m == Jsc then Plus(r, f)
    else Half(Plus(r, f))
  }

  /** The header's parts: titles, labels down column E, 'Values', directions. */
  function TitleCells(device: string): seq<Write>
  {
    [Write(0, 0, Str("J, mA/cm²")), Write(0, 1, Str("V, V")), Write(0, 2, Str("P, W")),
     Write(0, 4, Str(device)), Write(1, 4, Str("Parameters"))]
  }

  function LabelCells(): seq<Write>
  {
    seq(|SHEET_LABELS|, k requires 0 <= k < |SHEET_LABELS| => Write(k + 2, 4, Str(SHEET_LABELS[k])))
  }

  lemma HeaderParts(device: string)
    ensures GuiHeaderWrites(device)
      == TitleCells(device) + LabelCells() + CenterAcross(0, VALUE_COLUMN, Str("Values")) + DirectionRow(VALUE_COLUMN)
  {
  }

  /** Every write of the triples lies in columns F to H. */
  lemma {:induction false} TriplesColumns(ts: seq<Row3>)
    ensures forall w :: w in Triples(ts) ==> VALUE_COLUMN <= w.col < VALUE_COLUMN + 3
  {
    if ts != [] {
      TriplesColumns(ts[..|ts| - 1]);
    }
  }

  /** `write_parameters` writes only in columns F to H, and never on row 1. */
  lemma ParameterPlaces(fwd: Sweep, rev: Sweep, area: real, light: real)
    ensures forall w :: w in ParameterCells(fwd, rev, area, light) ==> VALUE_COLUMN <= w.col < VALUE_COLUMN + 3 && w.row != 1
  {
    TriplesColumns(MetricTriples(fwd, rev, area));
    TriplesMiss(MetricTriples(fwd, rev, area), 1);
  }

  /** Rows 2 to 13 of column E hold the parameter names. */
  lemma LabelAt(device: string, params: seq<Write>, row: nat)
    requires 2 <= row < 14 && forall w :: w in params ==> w.col != 4
    ensures CellAt(GuiHeaderWrites(device) + params, row, 4) == Some(Str(SHEET_LABELS[row - 2]))
  {
    var t, l := TitleCells(device), LabelCells();
    var ca, dr := CenterAcross(0, VALUE_COLUMN, Str("Values")), DirectionRow(VALUE_COLUMN);
    HeaderParts(device);
    assert l[row - 2] == Write(row, 4, Str(SHEET_LABELS[row - 2]));
    CellAtSole(l, row, 4, Str(SHEET_LABELS[row - 2]));
    CellAtConcat(t, l, row, 4);
    CellOwned(t + l, ca, row, 4);
    CellOwned(t + l + ca, dr, row, 4);
    CellOwned(GuiHeaderWrites(device), params, row, 4);
  }

  /** Row 1 of columns F to H holds the directions. */
  lemma DirectionAt(device: string, params: seq<Write>, col: nat)
    requires VALUE_COLUMN <= col < VALUE_COLUMN + 3 && forall w :: w in params ==> w.row != 1
    ensures CellAt(GuiHeaderWrites(device) + params, 1, col) == Some(Str(DIRECTIONS[col - VALUE_COLUMN]))
  {
    var rest := TitleCells(device) + LabelCells() + CenterAcross(0, VALUE_COLUMN, Str("Values"));
    HeaderParts(device);
    DirectionRowCells(VALUE_COLUMN, col);
    CellAtConcat(rest, DirectionRow(VALUE_COLUMN), 1, col);
    CellOwned(GuiHeaderWrites(device), params, 1, col);
  }

  /** Table column c, headed by `GUI_HEADERS[c]`, refers into the device's
      sheet: column 1 to the direction over the sweep column, columns 2 to
      10 to the row labelled with the same quantity, which holds that
      direction's value of the metric, and column 11 to the area in F13. */
  lemma GuiTableReadsSheet(name: string, fwd: Sweep, rev: Sweep, area: real, light: real,
                           rowIndex: nat, sheet: string, col: nat, c: nat)
    requires VALUE_COLUMN <= col < VALUE_COLUMN + 3 && 1 <= c < 12
    ensures var cells := GuiHeaderWrites(name) + ParameterCells(fwd, rev, area, light);
      var ref := GuiTableRow(rowIndex, sheet, col)[c];
      GuiHeaderRow()[c] == Str(GUI_HEADERS[c]) && ref.Ref? && ref.sheet == sheet
      && (c == 1 ==> ref.col == col && ref.row == 1 && CellAt(cells, 1, col) == Some(Str(DIRECTIONS[col - VALUE_COLUMN])))
      && (2 <= c < 11 ==>
            var m := TABLE_METRICS[c - 2];
            ref.col == col && ref.row == MetricRow(m)
            && CellAt(cells, ref.row, 4) == Some(Str(SHEET_LABELS[ref.row - 2]))
            && CellAt(cells, ref.row, col) == Some(Number(DirectionValue(fwd, rev, area, m, col))))
      && (c == 11 ==>
            ref.col == VALUE_COLUMN && ref.row == 12
            && CellAt(cells, 12, 4) == Some(Str(SHEET_LABELS[10]))
            && CellAt(cells, 12, VALUE_COLUMN) == Some(Number(Finite(area))))
  {
    if c == 1 {
      ParameterPlaces(fwd, rev, area, light);
      DirectionAt(name, ParameterCells(fwd, rev, area, light), col);
    } else if c < 11 {
      GuiTableMetric(name, fwd, rev, area, light, rowIndex, sheet, col, c);
    } else {
      GuiTableArea(name, fwd, rev, area, light, rowIndex, sheet, col);
    }
  }

  /** A metric column of the table refers to the row labelled with that
      metric, which holds the direction's value of it. */
  lemma GuiTableMetric(name: string, fwd: Sweep, rev: Sweep, area: real, light: real,
                       rowIndex: nat, sheet: string, col: nat, c: nat)
    requires VALUE_COLUMN <= col < VALUE_COLUMN + 3 && 2 <= c < 11
    ensures var cells := GuiHeaderWrites(name) + ParameterCells(fwd, rev, area, light);
      var ref := GuiTableRow(rowIndex, sheet, col)[c];
      var m := TABLE_METRICS[c - 2];
      ref.Ref? && ref.sheet == sheet && ref.col == col && ref.row == MetricRow(m)
      && CellAt(cells, ref.row, 4) == Some(Str(SHEET_LABELS[ref.row - 2]))
      && CellAt(cells, ref.row, col) == Some(Number(DirectionValue(fwd, rev, area, m, col)))
  {
    var m := TABLE_METRICS[c - 2];
    TableRowMetric(rowIndex, sheet, col, c);
    ParameterPlaces(fwd, rev, area, light);
    HoldsDirection(fwd, rev, area, light, m, col);
    SheetCell(name, ParameterCells(fwd, rev, area, light), MetricRow(m), col);
  }

  /** Table columns 2 to 10 are formulas into the rows of the metrics. */
  lemma TableRowMetric(rowIndex: nat, sheet: string, col: nat, c: nat)
    requires 2 <= c < 11
    ensures GuiTableRow(rowIndex, sheet, col)[c] == Ref(sheet, col, MetricRow(TABLE_METRICS[c - 2]))
  {
    assert GuiTableRow(rowIndex, sheet, col)[c] == Ref(sheet, col, FORMULA_ROWS[c - 1]);
  }

  /** Each direction column of a metric's row holds that direction's value. */
  lemma HoldsDirection(fwd: Sweep, rev: Sweep, area: real, light: real, m: Metric, col: nat)
    requires VALUE_COLUMN <= col < VALUE_COLUMN + 3
    ensures CellAt(ParameterCells(fwd, rev, area, light), MetricRow(m), col)
      == Some(Number(DirectionValue(fwd, rev, area, m, col)))
  {
    ParameterCellsHold(fwd, rev, area, light, m);
  }

  /** Below the header, column E holds the labels and the value columns
      what the parameter writes left there. */
  lemma SheetCell(name: string, params: seq<Write>, row: nat, col: nat)
    requires 2 <= row < 14 && VALUE_COLUMN <= col
    requires forall w :: w in params ==> VALUE_COLUMN <= w.col
    requires CellAt(params, row, col).Some?
    ensures CellAt(GuiHeaderWrites(name) + params, row, 4) == Some(Str(SHEET_LABELS[row - 2]))
    ensures CellAt(GuiHeaderWrites(name) + params, row, col) == CellAt(params, row, col)
  {
    LabelAt(name, params, row);
    CellAtConcat(GuiHeaderWrites(name), params, row, col);
  }

  /** The area column of the table refers to F13, which holds the area. */
  lemma GuiTableArea(name: string, fwd: Sweep, rev: Sweep, area: real, light: real,
                     rowIndex: nat, sheet: string, col: nat)
    requires VALUE_COLUMN <= col < VALUE_COLUMN + 3
    ensures var cells := GuiHeaderWrites(name) + ParameterCells(fwd, rev, area, light);
      var ref := GuiTableRow(rowIndex, sheet, col)[11];
      ref.Ref? && ref.sheet == sheet && ref.col == VALUE_COLUMN && ref.row == 12
      && CellAt(cells, 12, 4) == Some(Str(SHEET_LABELS[10]))
      && CellAt(cells, 12, VALUE_COLUMN) == Some(Number(Finite(area)))
  {
    var params := ParameterCells(fwd, rev, area, light);
    ParameterPlaces(fwd, rev, area, light);
    LabelAt(name, params, 12);
    ParameterCellsSettings(fwd, rev, area, light);
    CellAtConcat(GuiHeaderWrites(name), params, 12, VALUE_COLUMN);
  }

  // ---------------------------------------------------------------------
  // The writer as an object

  class GuiDevicePlotter {
    var data: Devices
    const lstsq: (seq<real>, seq<real>) -> IV.Line
    var forward: Option<Sweep>
    var reverse: Option<Sweep>
    var activeArea: Option<real>
    var lightIntensity: Option<real>
    var sheets: seq<Sheet>
    var tables: seq<PT.Grid>

    /** Stores the matched devices; every attribute starts out `None`. */
    constructor (matched: Devices, lstsq: (seq<real>, seq<real>) -> IV.Line)
      ensures data == matched && this.lstsq == lstsq
      ensures forward == None && reverse == None && activeArea == None && lightIntensity == None
      ensures sheets == [] && tables == []
    {
      data := matched;
      this.lstsq := lstsq;
      forward, reverse := None, None;
      activeArea, lightIntensity := None, None;
      sheets, tables := [], [];
    }

    /** The constructor's whole run: the device sheets, then the tables;
        the first error stops it. */
    static method Create(matched: Devices, lstsq: (seq<real>, seq<real>) -> IV.Line)
      returns (plotter: GuiDevicePlotter, r: Result<()>)
      ensures fresh(plotter) && plotter.lstsq == lstsq
      ensures var w := GuiWorkbook(matched, lstsq);
        if w.Ok? then r.Ok? && plotter.data == w.value.0 && plotter.sheets == w.value.1 && plotter.tables == w.value.2
        else r == Err(w.error)
    {
      plotter := new GuiDevicePlotter(matched, lstsq);
      r := plotter.SetWorksheets();
      if r.Err? {
        return;
      }
      GuiWorkbookOk(matched, lstsq);
      r := plotter.FillTables();
    }

    /** `for _, row_data in sweep_data.iterrows()`: a row per sample after
        the rows before it. */
    static method WriteRows(sweep: Frame, area: real, rows: seq<DataRow>) returns (out: seq<DataRow>)
      ensures out == rows + RowsOf(sweep, area)
    {
      out := rows;
      for k := 0 to |sweep|
        invariant out == rows + RowsOf(sweep[..k], area)
      {
        PW.RowsOfConcat(sweep[..k], [sweep[k]], area);
        assert sweep[..k + 1] == sweep[..k] + [sweep[k]];
        out := out + [RowOf(sweep[k], area)];
      }
      assert sweep[..|sweep|] == sweep;
    }

    /** The sweep loop of one device: each sweep measured in turn, a
        '1_Forward' sweep replacing the Forward attributes and a
        '2_Reverse' sweep the Reverse ones, its rows written after the
        rows before it. */
    method MeasureSweeps(frames: Dict<string, Frame>, area: real, measure: Frame -> Result<Sweep>)
      returns (r: Result<seq<DataRow>>)
      modifies this`forward, this`reverse
      ensures var p := SweepPass(frames, |frames|, area, measure, old(forward), old(reverse));
        if p.Ok? then r == Ok(p.value.2) && forward == p.value.0 && reverse == p.value.1
        else r == Err(p.error)
    {
      var rows: seq<DataRow> := [];
      for k := 0 to |frames|
        invariant SweepPass(frames, k, area, measure, old(forward), old(reverse)) == Ok((forward, reverse, rows))
      {
        SweepPassNext(frames, k, area, measure, old(forward), old(reverse), (forward, reverse, rows));
        var s := measure(frames[k].1);
        if s.Err? {
          SweepPassStaysFailed(frames, k + 1, |frames|, area, measure, old(forward), old(reverse));
          return Err(s.error);
        }
        if frames[k].0 == FORWARD {
          forward := Some(s.value);
        } else if frames[k].0 == REVERSE {
          reverse := Some(s.value);
        }
        rows := WriteRows(frames[k].1, area, rows);
      }
      r := Ok(rows);
    }

    /** One device of `set_worksheets`: its sheet name and offsets, the
        area and light intensity into the attributes, the sweeps, then the
        parameters from the attributes. */
    method WriteDevice(folder: string, counter: nat, name: string, dev: Device, long: bool, single: bool)
      returns (r: Result<(Device, Sheet)>)
      modifies this`forward, this`reverse, this`activeArea, this`lightIntensity
      ensures r == GuiDeviceSheet(folder, counter, name, dev, long, single, lstsq)
      ensures r.Ok? ==>
        activeArea == dev.area && lightIntensity == dev.light
        && var p := SweepPass(dev.data, |dev.data|, dev.area.value, Measure(dev.area.value, dev.light.value, lstsq), None, None);
           p.Ok? && forward == p.value.0 && reverse == p.value.1
    {
      var sheetName := GuiSheetName(folder, counter, name, long, single);
      var offsets :- OffsetsOf(dev.data);
      if dev.area.None? {
        return Err(KeyError("Active area"));
      }
      activeArea := dev.area;
      if dev.light.None? {
        return Err(KeyError("Light Intensity"));
      }
      lightIntensity := dev.light;
      ghost var f0, r0 := forward, reverse;
      var pass := MeasureSweeps(dev.data, dev.area.value, Measure(dev.area.value, dev.light.value, lstsq));
      PrefixAll(dev.data);
      SweepPassStart(dev.data, |dev.data|, dev.area.value, Measure(dev.area.value, dev.light.value, lstsq), f0, r0, None, None);
      if pass.Err? {
        return Err(pass.error);
      }
      var cells :- ParametersOf(forward, reverse, dev.area.value, dev.light.value);
      r := Ok((dev.(stamp := Some(Stamp(sheetName, offsets))), Sheet(sheetName, GuiHeaderWrites(name) + cells, pass.value, [])));
    }

    /** Device `j` of folder `i`: its sheet is written and, on success, the
        device is replaced in place by its stamped copy. */
    method StampDevice(i: nat, j: nat, long: bool, single: bool) returns (one: Result<(Device, Sheet)>)
      requires i < |data| && j < |data[i].1|
      modifies this`data, this`forward, this`reverse, this`activeArea, this`lightIntensity
      ensures one == GuiDeviceSheet(old(data)[i].0, i + 1, old(data)[i].1[j].0, old(data)[i].1[j].1, long, single, lstsq)
      ensures one.Ok? ==> data == old(data)[i := (old(data)[i].0, old(data)[i].1[j := (old(data)[i].1[j].0, one.value.0)])]
      ensures one.Err? ==> data == old(data)
    {
      var folder, device, dev := data[i].0, data[i].1[j].0, data[i].1[j].1;
      one := WriteDevice(folder, i + 1, device, dev, long, single);
      if one.Ok? {
        data := data[i := (folder, data[i].1[j := (device, one.value.0)])];
      }
    }

    /** The devices of folder `i`, each stamped in place; the folder's
        sheets are returned in order. */
    method WriteFolder(i: nat, long: bool, single: bool) returns (r: Result<seq<Sheet>>)
      requires i < |data|
      modifies this`data, this`forward, this`reverse, this`activeArea, this`lightIntensity
      ensures var w := GuiFolders(long, single, lstsq)(old(data)[i].0, i + 1, old(data)[i].1);
        if w.Ok? then r == Ok(w.value.1) && data == old(data)[i := (old(data)[i].0, w.value.0)]
        else r == Err(w.error)
    {
      var folder, devs := data[i].0, data[i].1;
      var make := GuiSheetOf(folder, i + 1, long, single, lstsq);
      ghost var before := data;
      ghost var done: Dict<string, Device> := [];
      var made: seq<Sheet> := [];
      assert done + devs[0..] == devs;
      assert devs[..0] == [];
      for j := 0 to |devs|
        invariant |done| == j && FolderSheets(devs[..j], make) == Ok((done, made))
        invariant data == before[i := (folder, done + devs[j..])]
      {
        assert data[i].1[j] == devs[j];
        var one := StampDevice(i, j, long, single);
        PW.FolderNext(devs, j, make, done, one, made);
        if one.Err? {
          FolderSheetsStayFailed(devs, j + 1, make);
          return Err(one.error);
        }
        var x := (devs[j].0, one.value.0);
        PW.Overwrite(done, devs, j, x);
        done := done + [x];
        made := made + [one.value.1];
        assert FolderSheets(devs[..j + 1], make) == Ok((done, made));
        assert data == before[i := (folder, done + devs[j + 1..])];
      }
      PrefixAll(devs);
      assert done + devs[|devs|..] == done;
      r := Ok(made);
    }

    /** Every folder in order, each stamped in place; the sheets are
        returned in order and the first error stops it. */
    method WriteFolders(long: bool, single: bool) returns (r: Result<seq<Sheet>>)
      modifies this`data, this`forward, this`reverse, this`activeArea, this`lightIntensity
      ensures var w := AllSheets(old(data), |old(data)|, GuiFolders(long, single, lstsq));
        if w.Ok? then r == Ok(w.value.1) && data == w.value.0
        else r == Err(w.error)
    {
      ghost var original := data;
      ghost var done: Devices := [];
      var made: seq<Sheet> := [];
      assert data == done + original[0..];
      var folders := |data|;
      for i := 0 to folders
        invariant |data| == |original| == folders && |done| == i
        invariant data == done + original[i..]
        invariant AllSheets(original, i, GuiFolders(long, single, lstsq)) == Ok((done, made))
      {
        assert data[i] == original[i];
        ghost var step := GuiFolders(long, single, lstsq)(original[i].0, i + 1, original[i].1);
        var more := WriteFolder(i, long, single);
        PW.AllNext(original, i, GuiFolders(long, single, lstsq), done, made, step);
        if more.Err? {
          AllSheetsStayFailed(original, i + 1, |original|, GuiFolders(long, single, lstsq));
          return Err(more.error);
        }
        PW.Overwrite(done, original, i, data[i]);
        done := done + [data[i]];
        made := made + more.value;
      }
      assert done + original[|original|..] == done;
      r := Ok(made);
    }

    /** `set_worksheets`: the naming mode is fixed from all names first,
        then every folder is written in order; the first error stops it. */
    method SetWorksheets() returns (r: Result<()>)
      modifies this`data, this`sheets, this`forward, this`reverse, this`activeArea, this`lightIntensity
      ensures var w := GuiWorksheets(old(data), lstsq);
        if w.Ok? then r.Ok? && data == w.value.0 && sheets == old(sheets) + w.value.1
        else r == Err(w.error)
    {
      var made :- WriteFolders(LongNameFound(data), |data| == 1);
      sheets := sheets + made;
      r := Ok(());
    }

    /** `fill_tables`: the four tables, each read from every device's sheet
        in order. */
    method FillTables() returns (r: Result<()>)
      modifies this`tables
      ensures var t := GuiTables(data);
        if t.Ok? then r.Ok? && tables == t.value else r == Err(t.error) && tables == old(tables)
    {
      var grids: seq<PT.Grid> := [];
      for t := 0 to |PT.TABLES|
        invariant |grids| == t && (0 < t ==> PT.SheetNames(data).Ok?) && tables == old(tables)
        invariant forall k :: 0 <= k < t ==> grids[k] == GuiTable(PT.SheetNames(data).value, PT.TABLES[k])
      {
        var grid := FillTable(PT.TABLES[t]);
        if grid.Err? {
          return Err(grid.error);
        }
        grids := grids + [grid.value];
      }
      tables := grids;
      r := Ok(());
    }

    /** One table: the header, then a row per device and sweep column,
        `row_index` counting from 1. */
    method FillTable(cols: seq<nat>) returns (r: Result<PT.Grid>)
      ensures var names := PT.SheetNames(data);
        if names.Ok? then r == Ok(GuiTable(names.value, cols)) else r == Err(names.error)
    {
      var body: seq<seq<Content>> := [];
      var rowIndex := 1;
      ghost var got: seq<string> := [];
      assert data[..0] == [];
      for i := 0 to |data|
        invariant PT.SheetNames(data[..i]) == Ok(got)
        invariant body == GuiTableBody(got, cols) && rowIndex == 1 + |body|
      {
        PT.SheetNamesNext(data, i, got);
        var more;
        ghost var names;
        more, names, rowIndex := FolderRows(got, data[i].1, cols, body, rowIndex);
        if more.Err? {
          PT.SheetNamesStayFailed(data, i + 1);
          return Err(more.error);
        }
        body := more.value;
        got := got + names;
      }
      assert data[..|data|] == data;
      r := Ok([GuiHeaderRow()] + body);
    }

    /** The rows of one folder's devices, below `body`. */
    static method FolderRows(ghost before: seq<string>, devs: Dict<string, Device>, cols: seq<nat>,
                             body: seq<seq<Content>>, rowIndex: nat)
      returns (r: Result<seq<seq<Content>>>, ghost names: seq<string>, next: nat)
      requires body == GuiTableBody(before, cols) && rowIndex == 1 + |body|
      ensures PT.FolderNames(devs).Ok? ==>
        names == PT.FolderNames(devs).value && r == Ok(GuiTableBody(before + names, cols))
        && next == 1 + |r.value|
      ensures PT.FolderNames(devs).Err? ==> r == Err(PT.FolderNames(devs).error)
    {
      var out := body;
      next := rowIndex;
      names := [];
      assert devs[..0] == [] && before + names == before;
      for j := 0 to |devs|
        invariant PT.FolderNames(devs[..j]) == Ok(names)
        invariant out == GuiTableBody(before + names, cols) && next == 1 + |out|
      {
        PT.FolderNamesNext(devs, j, names);
        var stamp := devs[j].1.stamp;
        if stamp.None? {
          PT.FolderNamesStayFailed(devs, j + 1);
          return Err(KeyError("sheet_name")), names, next;
        }
        var rows := TableRows(next, stamp.value.sheetName, cols);
        ghost var full := before + (names + [stamp.value.sheetName]);
        assert full[..|full| - 1] == before + names;
        out := out + rows;
        next := next + |cols|;
        names := names + [stamp.value.sheetName];
      }
      assert devs[..|devs|] == devs;
      r := Ok(out);
    }

    /** One device's rows, one per sweep column, each `write_table_rows`. */
    static method TableRows(rowIndex: nat, sheet: string, cols: seq<nat>) returns (rows: seq<seq<Content>>)
      ensures rows == GuiDeviceRows(rowIndex, sheet, cols)
    {
      rows := [];
      var index := rowIndex;
      for s := 0 to |cols|
        invariant index == rowIndex + s && |rows| == s
        invariant forall k :: 0 <= k < s ==> rows[k] == GuiTableRow(rowIndex + k, sheet, cols[k])
      {
        rows := rows + [GuiTableRow(index, sheet, cols[s])];
        index := index + 1;
      }
    }
  }
}
