/** Raw-file parsing of the current revision (JV_plotter_GUI/Data_Reader.py):
    per-instrument line scans, current-unit normalisation to amperes and the
    final orientation flip. The file text is given as its lines, as
    `readlines()` returns them; tables that pandas `read_csv` parses are given
    as already-parsed frames. Text-to-number conversion is a parameter. */
module DataReader {
  import opened Wrappers
  import opened Strs
  import opened Frames
  import Instruments

  const Micro: char := '\U{b5}'

  // ---------------------------------------------------------------------
  // convert_current

  /** The tokens `convert_current` accepts. */
  predicate KnownUnit(unit: string)
  {
    unit in {"A", "I", "mA", "Im", [Micro, 'A'], ['I', Micro]}
  }

  /** The factor that brings a current in `unit` to amperes. */
  function AmpereFactor(unit: string): real
  {
    if unit == "A" || unit == "I" then 1.0
    else if unit == "mA" || unit == "Im" then 1.0 / 1000.0
    else if unit == [Micro, 'A'] || unit == ['I', Micro] then 1.0 / 1000000.0
    else 1.0
  }

  function ScaleCurrents(f: Frame, factor: real): (r: Frame)
    ensures |r| == |f| && forall k :: 0 <= k < |f| ==> r[k] == Sample(f[k].v, f[k].i * factor)
  {
    seq(|f|, k requires 0 <= k < |f| => Sample(f[k].v, f[k].i * factor))
  }

  /** `convert_current(current_unit, df)`: any other token (or none at all)
      shows an error dialog and exits the application. */
  function ConvertCurrent(unit: Option<string>, f: Frame): (r: Result<Frame>)
    ensures r.Ok? <==> unit.Some? && KnownUnit(unit.value)
    ensures r.Err? ==> r.error.AppExit?
    ensures r.Ok? ==> |r.value| == |f| && forall k :: 0 <= k < |f| ==> r.value[k].v == f[k].v
    ensures r.Ok? && unit.value in {"A", "I"} ==> r.value == f
    ensures r.Ok? && unit.value in {"mA", "Im"} ==> forall k :: 0 <= k < |f| ==> r.value[k].i * 1000.0 == f[k].i
    ensures r.Ok? && unit.value in {[Micro, 'A'], ['I', Micro]} ==>
      forall k :: 0 <= k < |f| ==> r.value[k].i * 1000000.0 == f[k].i
  {
    if unit.Some? && KnownUnit(unit.value) then
      var r := ScaleCurrents(f, AmpereFactor(unit.value));
      assert unit.value in {"A", "I"} ==> r == f;
      Ok(r)
    else Err(AppExit("unexpected current unit"))
  }

  // ---------------------------------------------------------------------
  // Gamry: CURVE...TABLE blocks

  predicate IsCurveMarker(line: string)
  {
    Contains(line, "CURVE") && Contains(line, "TABLE")
  }

  /** A line stripped and split at tabs. */
  function Fields(line: string): seq<string>
  {
    Split(Strip(line), "\t")
  }

  /** The current-unit token for a marker at `i`: field 3 of the next line. */
  function UnitAfter(lines: seq<string>, i: nat): Option<string>
  {
    if i + 1 < |lines| && |Fields(lines[i + 1])| > 3 then Some(Fields(lines[i + 1])[3]) else None
  }

  /** What the marker loop needs to know about each line: whether it is a
      marker and the unit token that would follow it. */
  datatype LineInfo = LineInfo(marker: bool, unit: Option<string>)

  function Classify(lines: seq<string>): (info: seq<LineInfo>)
    ensures |info| == |lines|
  {
    seq(|lines|, k requires 0 <= k < |lines| => LineInfo(IsCurveMarker(lines[k]), UnitAfter(lines, k)))
  }

  /** Positions of the markers among the first `n` lines, in file order. */
  function MarkersBelow(info: seq<LineInfo>, n: nat): (ms: seq<nat>)
    requires n <= |info|
    ensures forall j :: 0 <= j < |ms| ==> ms[j] < n && info[ms[j]].marker
    ensures forall j, k :: 0 <= j < k < |ms| ==> ms[j] < ms[k]
  {
    if n == 0 then []
    else MarkersBelow(info, n - 1) + (if info[n - 1].marker then [n - 1] else [])
  }

  /** Every marker line below `n` is listed. */
  lemma {:induction false} MarkersBelowComplete(info: seq<LineInfo>, n: nat, i: nat)
    requires i < n <= |info| && info[i].marker
    ensures i in MarkersBelow(info, n)
  {
    if i < n - 1 {
      MarkersBelowComplete(info, n - 1, i);
    }
  }

  /** The marker lines of a file. */
  function Markers(lines: seq<string>): (ms: seq<nat>)
    ensures forall j :: 0 <= j < |ms| ==> ms[j] < |lines| && IsCurveMarker(lines[ms[j]])
    ensures forall j, k :: 0 <= j < k < |ms| ==> ms[j] < ms[k]
    ensures forall i :: 0 <= i < |lines| && IsCurveMarker(lines[i]) ==> i in ms
  {
    var info := Classify(lines);
    forall i | 0 <= i < |lines| && IsCurveMarker(lines[i]) ensures i in MarkersBelow(info, |info|) {
      MarkersBelowComplete(info, |info|, i);
    }
    MarkersBelow(info, |info|)
  }

  /** How many of the markers `ms` carry a unit other than `first`: one
      warning dialog each. */
  function Mismatches(info: seq<LineInfo>, ms: seq<nat>, first: string): nat
    requires forall j :: 0 <= j < |ms| ==> ms[j] < |info|
  {
    if ms == [] then 0
    else Mismatches(info, ms[..|ms| - 1], first) + (if info[ms[|ms| - 1]].unit != Some(first) then 1 else 0)
  }

  lemma MismatchesSnoc(info: seq<LineInfo>, ms: seq<nat>, m: nat, first: string)
    requires forall j :: 0 <= j < |ms| ==> ms[j] < |info|
    requires m < |info|
    ensures Mismatches(info, ms + [m], first)
      == Mismatches(info, ms, first) + (if info[m].unit != Some(first) then 1 else 0)
  {
    assert (ms + [m])[..|ms|] == ms;
  }

  datatype CurveScan = CurveScan(starts: seq<nat>, unit: Option<string>, warnings: nat)

  /** The marker loop of the Gamry branch over the classified lines: records
      every marker and keeps the first unit token; a later different token
      only raises a warning. */
  method ScanCurveMarkers(info: seq<LineInfo>) returns (r: Result<CurveScan>)
    ensures r.Ok? <==> forall i :: i in MarkersBelow(info, |info|) ==> info[i].unit.Some?
    ensures r.Err? ==> r.error.IndexError?
    ensures r.Ok? ==> r.value.starts == MarkersBelow(info, |info|)
    ensures r.Ok? ==> r.value.unit == if r.value.starts == [] then None else info[r.value.starts[0]].unit
    ensures r.Ok? && r.value.unit.Some? ==> r.value.warnings == Mismatches(info, r.value.starts, r.value.unit.value)
  {
    var starts: seq<nat> := [];
    var unit: Option<string> := None;
    var warnings := 0;
    var i := 0;
    while i < |info|
      invariant i <= |info|
      invariant starts == MarkersBelow(info, i)
      invariant forall m :: m in starts ==> info[m].unit.Some?
      invariant unit == if starts == [] then None else info[starts[0]].unit
      invariant unit.Some? ==> warnings == Mismatches(info, starts, unit.value)
      invariant unit.None? ==> warnings == 0
    {
      if info[i].marker {
        var u := info[i].unit;
        if u.None? {
          MarkersBelowComplete(info, |info|, i);
          return Err(IndexError("list index out of range"));
        }
        ghost var before := starts;
        starts := starts + [i];
        assert starts[..|starts| - 1] == before;
        if unit.None? {
          unit := u;
          MismatchesSnoc(info, before, i, unit.value);
        } else {
          MismatchesSnoc(info, before, i, unit.value);
          if unit.value != u.value {
            warnings := warnings + 1;
          }
        }
      }
      i := i + 1;
    }
    r := Ok(CurveScan(starts, unit, warnings));
  }

  /** The widest row, as pandas sizes a frame built from ragged rows. */
  function Width(rows: seq<seq<string>>): nat
  {
    if rows == [] then 0 else var w := Width(rows[1..]); if |rows[0]| > w then |rows[0]| else w
  }

  function Count(s: seq<string>, x: string): nat
  {
    if s == [] then 0 else (if s[0] == x then 1 else 0) + Count(s[1..], x)
  }

  function IndexOf(s: seq<string>, x: string): (i: nat)
    requires x in s
    ensures i < |s| && s[i] == x
  {
    if s[0] == x then 0 else 1 + IndexOf(s[1..], x)
  }

  /** A field of a row, or nothing where the row is too short (pandas pads
      with None). */
  function Cell(row: seq<string>, c: nat, parse: string -> Option<real>): Option<real>
  {
    if c < |row| then parse(row[c]) else None
  }

  /** `pd.to_numeric(errors='coerce')` on both columns, then `dropna()`. */
  function NumericRows(rows: seq<seq<string>>, cv: nat, ci: nat, parse: string -> Option<real>): (r: Frame)
    ensures |r| <= |rows|
  {
    if rows == [] then []
    else
      var v, i := Cell(rows[0], cv, parse), Cell(rows[0], ci, parse);
      (if v.Some? && i.Some? then [Sample(v.value, i.value)] else []) + NumericRows(rows[1..], cv, ci, parse)
  }

  /** A row is kept exactly when both of its cells parse: with every row
      numeric, the frame has one sample per row, in order. */
  lemma {:induction false} NumericRowsAllParse(rows: seq<seq<string>>, cv: nat, ci: nat, parse: string -> Option<real>)
    requires forall k :: 0 <= k < |rows| ==> Cell(rows[k], cv, parse).Some? && Cell(rows[k], ci, parse).Some?
    ensures |NumericRows(rows, cv, ci, parse)| == |rows|
    ensures forall k :: 0 <= k < |rows| ==>
      NumericRows(rows, cv, ci, parse)[k] == Sample(Cell(rows[k], cv, parse).value, Cell(rows[k], ci, parse).value)
  {
    if rows != [] {
      NumericRowsAllParse(rows[1..], cv, ci, parse);
    }
  }

  /** A row with a cell that does not parse contributes nothing. */
  lemma NumericRowsDropsBad(rows: seq<seq<string>>, bad: seq<string>, cv: nat, ci: nat, parse: string -> Option<real>)
    requires Cell(bad, cv, parse).None? || Cell(bad, ci, parse).None?
    ensures NumericRows([bad] + rows, cv, ci, parse) == NumericRows(rows, cv, ci, parse)
  {
    assert ([bad] + rows)[1..] == rows;
  }

  /** The data lines of the block starting at `start` (Python slicing
      `lines[start + 3:end]`), split into fields. */
  function BlockRows(lines: seq<string>, start: nat, end: nat): (rows: seq<seq<string>>)
    requires end <= |lines|
  {
    if start + 3 < end then seq(end - start - 3, k requires 0 <= k < end - start - 3 => Fields(lines[start + 3 + k])) else []
  }

  /** `gamry_process_curve(lines, start, end)`: columns named by the line
      after the marker; pandas refuses a header whose length differs from the
      widest row (so a block without data rows raises ValueError), a missing
      'Vf' or 'Im' column raises KeyError and a repeated one makes
      `to_numeric` refuse a two-column selection. */
  function GamryProcessCurve(lines: seq<string>, start: nat, end: nat, parse: string -> Option<real>): (r: Result<Frame>)
    requires start + 1 < |lines| && end <= |lines|
    ensures r.Ok? ==> |r.value| <= |BlockRows(lines, start, end)|
    ensures r.Ok? <==> (Width(BlockRows(lines, start, end)) == |Fields(lines[start + 1])|
      && Count(Fields(lines[start + 1]), "Vf") == 1 && Count(Fields(lines[start + 1]), "Im") == 1)
  {
    var header := Fields(lines[start + 1]);
    var rows := BlockRows(lines, start, end);
    if Width(rows) != |header| then Err(ValueError("Length mismatch"))
    else if "Vf" !in header then CountAbsent(header, "Vf"); Err(KeyError("Vf"))
    else if "Im" !in header then CountAbsent(header, "Im"); Err(KeyError("Im"))
    else if Count(header, "Vf") != 1 || Count(header, "Im") != 1 then Err(TypeError("arg must be a 1-d array or Series"))
    else Ok(NumericRows(rows, IndexOf(header, "Vf"), IndexOf(header, "Im"), parse))
  }

  lemma {:induction false} CountAbsent(s: seq<string>, x: string)
    ensures x !in s <==> Count(s, x) == 0
  {
    if s != [] {
      CountAbsent(s[1..], x);
    }
  }

  /** Only the blocks with more than one numeric row, in file order. */
  function KeepLong(fs: seq<Frame>): seq<Frame>
  {
    if fs == [] then [] else KeepLong(fs[..|fs| - 1]) + (if |fs[|fs| - 1]| > 1 then [fs[|fs| - 1]] else [])
  }

  /** Keeping the long blocks distributes over concatenation, so blocks keep
      their file order; a single block is kept iff it has at least two rows. */
  lemma {:induction false} KeepLongAppend(a: seq<Frame>, b: seq<Frame>)
    ensures KeepLong(a + b) == KeepLong(a) + KeepLong(b)
    decreases |b|
  {
    if b != [] {
      var b' := b[..|b| - 1];
      KeepLongAppend(a, b');
      var last := b[|b| - 1];
      assert (a + b)[..|a + b| - 1] == a + b';
      assert (a + b)[|a + b| - 1] == last;
      var tail := if |last| > 1 then [last] else [];
      assert KeepLong(a + b) == KeepLong(a + b') + tail;
      assert KeepLong(b) == KeepLong(b') + tail;
    } else {
      assert a + b == a;
    }
  }

  lemma KeepLongSingle(f: Frame)
    ensures KeepLong([f]) == if |f| > 1 then [f] else []
  {
    assert [f][..0] == [];
  }

  /** `pd.concat(curve_dfs).reset_index(drop=True)`. */
  function Concat(fs: seq<Frame>): Frame
  {
    if fs == [] then [] else Concat(fs[..|fs| - 1]) + fs[|fs| - 1]
  }

  /** The blocks' bounds: every marker up to the next marker, the last one up
      to the end of the file. */
  function Bounds(lines: seq<string>): seq<nat>
  {
    Markers(lines) + [|lines|]
  }

  /** Blocks are disjoint, ordered and together cover the file from the first
      marker on: bounds strictly increase and end at the end of the file. */
  lemma BoundsOrdered(lines: seq<string>)
    ensures var b := Bounds(lines);
      b[|b| - 1] == |lines| && (forall j :: 0 <= j < |b| ==> b[j] <= |lines|)
      && forall j :: 0 <= j < |b| - 1 ==> b[j] < b[j + 1]
  {
    var ms := Markers(lines);
    var b := Bounds(lines);
    forall j | 0 <= j < |b| - 1 ensures b[j] < b[j + 1] {
      if j + 1 < |ms| { assert b[j] == ms[j] && b[j + 1] == ms[j + 1]; }
    }
  }

  /** Each block processed by `gamry_process_curve`, given the unit scan succeeded. */
  function Curves(lines: seq<string>, parse: string -> Option<real>): (cs: seq<Result<Frame>>)
    requires forall i :: i in Markers(lines) ==> UnitAfter(lines, i).Some?
    ensures |cs| == |Markers(lines)|
  {
    var b := Bounds(lines);
    BoundsOrdered(lines);
    seq(|b| - 1, k requires 0 <= k < |b| - 1 =>
      assert b[k] == Markers(lines)[k];
      assert b[k] in Markers(lines);
      GamryProcessCurve(lines, b[k], b[k + 1], parse))
  }

  function Values(cs: seq<Result<Frame>>): (fs: seq<Frame>)
    requires forall k :: 0 <= k < |cs| ==> cs[k].Ok?
    ensures |fs| == |cs| && forall k :: 0 <= k < |cs| ==> fs[k] == cs[k].value
  {
    seq(|cs|, k requires 0 <= k < |cs| => cs[k].value)
  }

  /** Every marker has its unit line and every block parses. */
  predicate GamryParses(lines: seq<string>, parse: string -> Option<real>)
  {
    (forall i :: i in Markers(lines) ==> UnitAfter(lines, i).Some?)
    && var cs := Curves(lines, parse); forall k :: 0 <= k < |cs| ==> cs[k].Ok?
  }

  /** The blocks with more than one row, concatenated in file order. */
  function GamryTable(lines: seq<string>, parse: string -> Option<real>): Frame
    requires GamryParses(lines, parse)
  {
    Concat(KeepLong(Values(Curves(lines, parse))))
  }

  /** The block loop: every block must parse (the first failing one aborts
      the read) and only the blocks with more than one row are kept. */
  method KeepCurves(cs: seq<Result<Frame>>) returns (r: Result<seq<Frame>>)
    ensures r.Ok? <==> forall k :: 0 <= k < |cs| ==> cs[k].Ok?
    ensures r.Ok? ==> r.value == KeepLong(Values(cs))
    ensures r.Err? ==> exists k :: 0 <= k < |cs| && cs[k] == Err(r.error) && forall j :: 0 <= j < k ==> cs[j].Ok?
  {
    var kept: seq<Frame> := [];
    var k := 0;
    while k < |cs|
      invariant k <= |cs|
      invariant forall j :: 0 <= j < k ==> cs[j].Ok?
      invariant kept == KeepLong(Values(cs[..k]))
    {
      if cs[k].Err? {
        return Err(cs[k].error);
      }
      var curve := cs[k].value;
      assert Values(cs[..k + 1]) == Values(cs[..k]) + [curve];
      KeepLongAppend(Values(cs[..k]), [curve]);
      KeepLongSingle(curve);
      if |curve| > 1 {
        kept := kept + [curve];
      }
      k := k + 1;
    }
    assert cs[..k] == cs;
    r := Ok(kept);
  }

  /** The Gamry branch: scan the markers, process every block, keep the long
      blocks, concatenate them (nothing to concatenate raises ValueError) and
      convert the current. */
  method ReadGamry(lines: seq<string>, parse: string -> Option<real>) returns (r: Result<(Frame, Option<string>)>)
    ensures r.Ok? ==> GamryParses(lines, parse) && KeepLong(Values(Curves(lines, parse))) != []
    ensures r.Ok? ==> (r.value.1 == UnitAfter(lines, Markers(lines)[0])
      && ConvertCurrent(r.value.1, GamryTable(lines, parse)) == Ok(r.value.0))
  {
    ghost var info := Classify(lines);
    var scan := ScanCurveMarkers(Classify(lines));
    if scan.Err? {
      return Err(scan.error);
    }
    assert scan.value.starts == Markers(lines);
    assert forall i :: i in Markers(lines) ==> UnitAfter(lines, i).Some? by {
      forall i | i in Markers(lines) ensures UnitAfter(lines, i).Some? {
        assert info[i].unit == UnitAfter(lines, i);
      }
    }
    var kept := KeepCurves(Curves(lines, parse));
    if kept.Err? {
      return Err(kept.error);
    }
    if kept.value == [] {
      return Err(ValueError("No objects to concatenate"));
    }
    assert Markers(lines) != [];
    assert scan.value.unit == UnitAfter(lines, Markers(lines)[0]);
    var converted := ConvertCurrent(scan.value.unit, Concat(kept.value));
    if converted.Err? {
      return Err(converted.error);
    }
    r := Ok((converted.value, scan.value.unit));
  }

  // ---------------------------------------------------------------------
  // PalmSens4: the unit line

  predicate IsUnitLine(line: string)
  {
    StartsWith(Strip(line), "V,")
  }

  /** The second comma field of a unit line. */
  function UnitField(line: string): string
    requires IsUnitLine(line)
  {
    UnitLineHasTwoFields(Strip(line));
    Split(Strip(line), ",")[1]
  }

  /** The index of the first line from `k` on starting with "V,",
      `|lines|` when there is none. */
  function FirstUnitLine(lines: seq<string>, k: nat): (j: nat)
    requires k <= |lines|
    ensures k <= j <= |lines| && (j < |lines| ==> IsUnitLine(lines[j]))
    ensures forall i :: k <= i < j ==> !IsUnitLine(lines[i])
    decreases |lines| - k
  {
    if k == |lines| || IsUnitLine(lines[k]) then k else FirstUnitLine(lines, k + 1)
  }

  /** The unit a PalmSens4 file declares: the second comma field of its
      first line starting with "V,", none when no line does. */
  function PalmSensUnit(lines: seq<string>): (u: Option<string>)
    ensures u.None? <==> forall j :: 0 <= j < |lines| ==> !IsUnitLine(lines[j])
    ensures u.Some? ==> exists j :: (0 <= j < |lines| && IsUnitLine(lines[j])
      && (forall i :: 0 <= i < j ==> !IsUnitLine(lines[i]))
      && u.value == UnitField(lines[j]))
  {
    var j := FirstUnitLine(lines, 0);
    if j < |lines| then Some(UnitField(lines[j])) else None
  }

  /** The `readline()` loop: skips lines until one starts with "V," after
      stripping and takes its second comma field. At the end of the file
      `readline()` keeps returning '' and the loop never ends. */
  method ScanPalmSensUnit(lines: seq<string>) returns (r: Result<string>)
    ensures r.Err? <==> PalmSensUnit(lines).None?
    ensures r.Err? ==> r.error.NeverReturns?
    ensures r.Ok? ==> r.value == PalmSensUnit(lines).value
  {
    var j := 0;
    while j < |lines| && !IsUnitLine(lines[j])
      invariant j <= |lines|
      invariant forall i :: 0 <= i < j ==> !IsUnitLine(lines[i])
    {
      j := j + 1;
    }
    var first := FirstUnitLine(lines, 0);
    if j == |lines| {
      assert first == |lines|;
      return Err(NeverReturns("readline() returns '' forever"));
    }
    assert first == j;
    r := Ok(UnitField(lines[j]));
  }

  /** A line starting with "V," splits into at least two comma fields. */
  lemma UnitLineHasTwoFields(line: string)
    requires StartsWith(line, "V,")
    ensures |Split(line, ",")| >= 2
  {
    assert OccursAt(line, ",", 1);
    assert line[0..1] == ['V'] by { assert line[..2] == "V,"; }
    assert !OccursAt(line, ",", 0);
    assert FindFrom(line, ",", 0) == Some(1);
  }

  // ---------------------------------------------------------------------
  // SP-150e: header directive, settling time, data rows

  datatype TimedSample = TimedSample(time: real, i: real, v: real)

  /** The variables the SP-150e loop updates as it reads. */
  datatype SpState = SpState(
    headerLines: Option<int>,
    iIndex: nat, vIndex: nat, timeIndex: Option<nat>,
    unit: Option<string>,
    settle: Option<real>,
    rows: seq<TimedSample>)

  const SpStart := SpState(None, 0, 0, None, None, None, [])

  /** `h:m:s` with three float fields, as seconds. */
  function Seconds(text: string, parse: string -> Option<real>): Result<real>
  {
    var parts := Split(text, ":");
    if |parts| != 3 then Err(ValueError("not enough values to unpack"))
    else if parse(parts[0]).None? || parse(parts[1]).None? || parse(parts[2]).None? then Err(ValueError("could not convert string to float"))
    else Ok(parse(parts[0]).value * 3600.0 + parse(parts[1]).value * 60.0 + parse(parts[2]).value)
  }

  /** The first field containing `tag`. */
  function FirstWith(values: seq<string>, tag: string, from: nat): (r: Option<nat>)
    requires from <= |values|
    ensures r.Some? ==> from <= r.value < |values| && Contains(values[r.value], tag)
    ensures r.Some? ==> forall j :: from <= j < r.value ==> !Contains(values[j], tag)
    ensures r.None? ==> forall j :: from <= j < |values| ==> !Contains(values[j], tag)
    decreases |values| - from
  {
    if from == |values| then None
    else if Contains(values[from], tag) then Some(from)
    else FirstWith(values, tag, from + 1)
  }

  /** The columns a header line names: the first fields containing "<I>"
      and "Ewe" (Python's `next` without a default raises StopIteration when
      there is none), the first containing "time" if any, and the current
      unit after the last "/" of the current column's name. */
  datatype Columns = Columns(iIndex: nat, vIndex: nat, timeIndex: Option<nat>, unit: string)

  function HeaderColumns(values: seq<string>): (r: Result<Columns>)
    ensures r.Ok? <==> FirstWith(values, "<I>", 0).Some? && FirstWith(values, "Ewe", 0).Some?
    ensures r.Err? ==> r.error.StopIteration?
    ensures r.Ok? ==> (r.value.iIndex < |values| && Contains(values[r.value.iIndex], "<I>")
      && r.value.vIndex < |values| && Contains(values[r.value.vIndex], "Ewe"))
  {
    match FirstWith(values, "<I>", 0)
    case None => Err(StopIteration("no '<I>' column"))
    case Some(ii) =>
      match FirstWith(values, "Ewe", 0)
      case None => Err(StopIteration("no 'Ewe' column"))
      case Some(vi) =>
        var units := Split(values[ii], "/");
        Ok(Columns(ii, vi, FirstWith(values, "time", 0), units[|units| - 1]))
  }

  /** What a stripped line is to the SP-150e loop before its state is
      consulted: the header-count directive, the settling-time line, or
      tab-separated cells (with the columns they would name as the header). */
  datatype SpLine =
    | HeaderCount(count: Result<int>)
    | SettleTime(seconds: Result<real>)
    | Cells(values: seq<string>, header: Result<Columns>)

  function ClassifySp(raw: string, parse: string -> Option<real>, toInt: string -> Option<int>): (k: SpLine)
    ensures k.HeaderCount? <==> Contains(Strip(raw), "Nb header lines")
    ensures k.SettleTime? <==> !Contains(Strip(raw), "Nb header lines") && StartsWith(Strip(raw), "ti (h:m:s)")
  {
    var line := Strip(raw);
    if Contains(line, "Nb header lines") then
      var parts := Split(line, ":");
      if |parts| < 2 then HeaderCount(Err(IndexError("list index out of range")))
      else match toInt(Strip(parts[1]))
        case None => HeaderCount(Err(ValueError("invalid literal for int()")))
        case Some(n) => HeaderCount(Ok(n))
    else if StartsWith(line, "ti (h:m:s)") then
      var after := Split(line, "ti (h:m:s)");
      assert |after| >= 2 by { SplitAtStart(line, "ti (h:m:s)"); }
      SettleTime(Seconds(after[1], parse))
    else
      var values := Split(line, "\t");
      Cells(values, HeaderColumns(values))
  }

  lemma SplitAtStart(line: string, sep: string)
    requires |sep| > 0 && StartsWith(line, sep)
    ensures |Split(line, sep)| >= 2
  {
    assert OccursAt(line, sep, 0);
  }

  /** A data row: the time stamp's second space-separated part as `h:m:s`,
      then the current and the voltage cells as floats, in that order. */
  function DataRow(values: seq<string>, ti: nat, ii: nat, vi: nat, parse: string -> Option<real>): (r: Result<TimedSample>)
    ensures r.Ok? ==> (ii < |values| && vi < |values|
      && Some(r.value.i) == parse(values[ii]) && Some(r.value.v) == parse(values[vi]))
  {
    if ti >= |values| then Err(IndexError("list index out of range"))
    else
      var stamp := Split(values[ti], " ");
      if |stamp| < 2 then Err(IndexError("list index out of range"))
      else match Seconds(stamp[1], parse)
        case Err(e) => Err(e)
        case Ok(t) =>
          if ii >= |values| then Err(IndexError("list index out of range"))
          else if parse(values[ii]).None? then Err(ValueError("could not convert string to float"))
          else if vi >= |values| then Err(IndexError("list index out of range"))
          else if parse(values[vi]).None? then Err(ValueError("could not convert string to float"))
          else Ok(TimedSample(t, parse(values[ii]).value, parse(values[vi]).value))
  }

  /** One pass of the loop body for the line numbered `number`. */
  function SpStep(s: SpState, number: nat, line: SpLine, parse: string -> Option<real>): (r: Result<SpState>)
    ensures r.Ok? ==> |s.rows| <= |r.value.rows| <= |s.rows| + 1 && r.value.rows[..|s.rows|] == s.rows
    ensures r.Ok? && !line.HeaderCount? ==> r.value.headerLines == s.headerLines
    ensures r.Ok? && |r.value.rows| > |s.rows| ==>
      s.headerLines.Some? && number > s.headerLines.value && s.timeIndex.Some?
    ensures r.Ok? && r.value.timeIndex != s.timeIndex ==>
      s.headerLines.Some? && number == s.headerLines.value
  {
    match line
    case HeaderCount(c) =>
      if c.Err? then Err(c.error) else Ok(s.(headerLines := Some(c.value)))
    case SettleTime(t) =>
      if t.Err? then Err(t.error) else Ok(s.(settle := Some(t.value)))
    case Cells(values, header) =>
      if s.headerLines.None? then Ok(s)
      else if number == s.headerLines.value then
        if header.Err? then Err(header.error)
        else
          var c := header.value;
          Ok(s.(iIndex := c.iIndex, vIndex := c.vIndex, timeIndex := c.timeIndex, unit := Some(c.unit)))
      else if number > s.headerLines.value && s.timeIndex.Some? then
        match DataRow(values, s.timeIndex.value, s.iIndex, s.vIndex, parse)
        case Err(e) => Err(e)
        case Ok(row) => Ok(s.(rows := s.rows + [row]))
      else Ok(s)
  }

  function SpLines(lines: seq<string>, parse: string -> Option<real>, toInt: string -> Option<int>): (ks: seq<SpLine>)
    ensures |ks| == |lines|
  {
    seq(|lines|, k requires 0 <= k < |lines| => ClassifySp(lines[k], parse, toInt))
  }

  /** The state after the first `n` lines (numbered from 1). */
  function SpScan(ks: seq<SpLine>, n: nat, parse: string -> Option<real>): Result<SpState>
    requires n <= |ks|
  {
    if n == 0 then Ok(SpStart)
    else match SpScan(ks, n - 1, parse)
      case Err(e) => Err(e)
      case Ok(s) => SpStep(s, n, ks[n - 1], parse)
  }

  /** Without a "Nb header lines" directive no data row is ever read. */
  lemma {:induction false} SpNoDirectiveNoRows(ks: seq<SpLine>, n: nat, parse: string -> Option<real>)
    requires n <= |ks|
    requires forall j :: 0 <= j < n ==> !ks[j].HeaderCount?
    ensures SpScan(ks, n, parse).Ok? ==> SpScan(ks, n, parse).value.rows == [] && SpScan(ks, n, parse).value.headerLines.None?
  {
    if n > 0 {
      SpNoDirectiveNoRows(ks, n - 1, parse);
    }
  }

  /** Rows are only ever appended: the rows after `n` lines extend the rows
      after any earlier line. */
  lemma {:induction false} SpRowsGrow(ks: seq<SpLine>, n: nat, m: nat, parse: string -> Option<real>)
    requires n <= m <= |ks| && SpScan(ks, m, parse).Ok?
    ensures SpScan(ks, n, parse).Ok?
    ensures var before, after := SpScan(ks, n, parse).value.rows, SpScan(ks, m, parse).value.rows;
      |before| <= |after| && after[..|before|] == before
    decreases m - n
  {
    if n < m {
      SpRowsGrow(ks, n, m - 1, parse);
      var before, mid, after := SpScan(ks, n, parse).value.rows, SpScan(ks, m - 1, parse).value.rows, SpScan(ks, m, parse).value.rows;
      assert after[..|mid|] == mid;
      assert after[..|before|] == mid[..|before|];
    }
  }

  /** The first error ends the read: later lines change nothing. */
  lemma {:induction false} SpScanStaysFailed(ks: seq<SpLine>, n: nat, m: nat, parse: string -> Option<real>)
    requires n <= m <= |ks| && SpScan(ks, n, parse).Err?
    ensures SpScan(ks, m, parse) == SpScan(ks, n, parse)
    decreases m - n
  {
    if n < m {
      SpScanStaysFailed(ks, n, m - 1, parse);
    }
  }

  /** The scan one line further is one more pass of the body. */
  lemma SpScanNext(ks: seq<SpLine>, n: nat, parse: string -> Option<real>, s: SpState)
    requires n < |ks| && SpScan(ks, n, parse) == Ok(s)
    ensures SpScan(ks, n + 1, parse) == SpStep(s, n + 1, ks[n], parse)
  {
  }

  /** The `for line_number, line in enumerate(file, start=1)` loop, over the
      file's lines as `ClassifySp` sees them. */
  method ScanSp150e(ks: seq<SpLine>, parse: string -> Option<real>) returns (r: Result<SpState>)
    ensures r == SpScan(ks, |ks|, parse)
  {
    var s := SpStart;
    var n := 0;
    while n < |ks|
      invariant n <= |ks|
      invariant SpScan(ks, n, parse) == Ok(s)
    {
      var next := SpStep(s, n + 1, ks[n], parse);
      SpScanNext(ks, n, parse, s);
      if next.Err? {
        SpScanStaysFailed(ks, n + 1, |ks|, parse);
        return Err(next.error);
      }
      s := next.value;
      n := n + 1;
    }
    r := Ok(s);
  }

  /** The rows whose time is strictly later than `limit`, in order. */
  function After(rows: seq<TimedSample>, limit: real): (r: seq<TimedSample>)
    ensures |r| <= |rows|
    ensures forall x :: x in r <==> x in rows && x.time > limit
  {
    if rows == [] then []
    else (if rows[0].time > limit then [rows[0]] else []) + After(rows[1..], limit)
  }

  function Untimed(rows: seq<TimedSample>): (f: Frame)
    ensures |f| == |rows| && forall k :: 0 <= k < |rows| ==> f[k] == Sample(rows[k].v, rows[k].i)
  {
    seq(|rows|, k requires 0 <= k < |rows| => Sample(rows[k].v, rows[k].i))
  }

  /** The settling-time mask `Time > preconditioning_time + Time[0]`: an empty
      table raises IndexError at `iloc[0]`, a missing "ti (h:m:s)" line makes
      the addition raise TypeError. */
  function Settled(s: SpState): (r: Result<seq<TimedSample>>)
    ensures r.Ok? <==> s.rows != [] && s.settle.Some?
    ensures r.Ok? ==> forall x :: x in r.value <==> x in s.rows && x.time > s.rows[0].time + s.settle.value
  {
    if s.rows == [] then Err(IndexError("single positional indexer is out-of-bounds"))
    else if s.settle.None? then Err(TypeError("unsupported operand type(s) for +: 'NoneType' and 'float'"))
    else Ok(After(s.rows, s.rows[0].time + s.settle.value))
  }

  /** The SP-150e branch up to the unit conversion. */
  method ReadSp150e(lines: seq<string>, parse: string -> Option<real>, toInt: string -> Option<int>)
    returns (r: Result<(Frame, Option<string>)>)
    ensures var sc := SpScan(SpLines(lines, parse, toInt), |lines|, parse);
      r.Ok? <==> sc.Ok? && Settled(sc.value).Ok? && sc.value.unit.Some? && KnownUnit(sc.value.unit.value)
    ensures r.Ok? ==> var s := SpScan(SpLines(lines, parse, toInt), |lines|, parse).value;
      Settled(s).Ok? && r.value.1 == s.unit && ConvertCurrent(s.unit, Untimed(Settled(s).value)) == Ok(r.value.0)
  {
    var scan := ScanSp150e(SpLines(lines, parse, toInt), parse);
    if scan.Err? {
      return Err(scan.error);
    }
    var kept := Settled(scan.value);
    if kept.Err? {
      return Err(kept.error);
    }
    var converted := ConvertCurrent(scan.value.unit, Untimed(kept.value));
    if converted.Err? {
      return Err(converted.error);
    }
    r := Ok((converted.value, scan.value.unit));
  }

  // ---------------------------------------------------------------------
  // read

  /** `Path(path).stem`: the final component without its last suffix. */
  function PathStem(path: string): string
  {
    var name := path[BaseStart(path)..];
    match LastDot(name)
    case Some(d) => if 0 < d < |name| - 1 then name[..d] else name
    case None => name
  }

  datatype Reading = Reading(name: string, frame: Frame, unit: Option<string>)

  /** Copies the table into an array, flips it in place and reads it back. */
  method FlipFrame(f: Frame) returns (r: Result<Frame>)
    ensures r.Ok? <==> |f| > 0
    ensures r.Ok? ==> |f| > 0 && r.value == Instruments.Flipped(f)
  {
    var a := new Sample[|f|](k requires 0 <= k < |f| => f[k]);
    assert a[..] == f;
    var ok := Instruments.FlipDataIfNecessary(a);
    if ok.Err? {
      return Err(ok.error);
    }
    r := Ok(a[..]);
  }

  /** `IVDataReader.read()`. `table` is what `read_csv` yields for SMU and
      PalmSens4 files (for PalmSens4 after dropping rows without I). */
  method Read(potentiostat: string, path: string, lines: seq<string>, table: Frame,
              parse: string -> Option<real>, toInt: string -> Option<int>)
    returns (r: Result<Reading>)
    ensures potentiostat !in {"SMU", "Gamry", "PalmSens4", "SP-150e"} ==> r.Err? && r.error.ValueError?
    ensures r.Ok? ==> r.value.name == PathStem(path) && |r.value.frame| > 0
    ensures potentiostat == "SMU" ==> ((r.Ok? <==> |table| > 0)
      && (r.Ok? ==> r.value.unit == Some("I") && r.value.frame == Instruments.Flipped(table)))
    ensures potentiostat == "PalmSens4" && (forall j :: 0 <= j < |lines| ==> !IsUnitLine(lines[j])) ==>
      r.Err? && r.error.NeverReturns?
    ensures potentiostat == "PalmSens4" ==> var u := PalmSensUnit(lines);
      (r.Ok? <==> u.Some? && KnownUnit(u.value) && |table| > 0)
      && (r.Ok? ==> r.value.unit == u && r.value.frame == Instruments.Flipped(ConvertCurrent(u, table).value))
    ensures potentiostat == "SP-150e" ==> var sc := SpScan(SpLines(lines, parse, toInt), |lines|, parse);
      (r.Ok? <==> sc.Ok? && Settled(sc.value).Ok? && sc.value.unit.Some? && KnownUnit(sc.value.unit.value) && Settled(sc.value).value != [])
      && (r.Ok? ==>
            r.value.unit == sc.value.unit
            && r.value.frame == Instruments.Flipped(ConvertCurrent(sc.value.unit, Untimed(Settled(sc.value).value)).value))
    ensures potentiostat == "Gamry" && r.Ok? ==> (GamryParses(lines, parse)
      && exists g: Frame :: (|g| > 0 && r.value.frame == Instruments.Flipped(g)
      && ConvertCurrent(r.value.unit, GamryTable(lines, parse)) == Ok(g)))
  {
    var df: Frame;
    var unit: Option<string>;
    if potentiostat == "SMU" {
      unit := Some("I");
      var c := ConvertCurrent(unit, table);
      df := c.value;
    } else if potentiostat == "Gamry" {
      var g := ReadGamry(lines, parse);
      if g.Err? {
        return Err(g.error);
      }
      df, unit := g.value.0, g.value.1;
    } else if potentiostat == "PalmSens4" {
      var u := ScanPalmSensUnit(lines);
      if u.Err? {
        return Err(u.error);
      }
      unit := Some(u.value);
      var c := ConvertCurrent(unit, table);
      if c.Err? {
        return Err(c.error);
      }
      df := c.value;
    } else if potentiostat == "SP-150e" {
      var s := ReadSp150e(lines, parse, toInt);
      if s.Err? {
        return Err(s.error);
      }
      df, unit := s.value.0, s.value.1;
    } else {
      return Err(ValueError("No matching potentiostat found for path"));
    }
    var flipped := FlipFrame(df);
    if flipped.Err? {
      return Err(flipped.error);
    }
    r := Ok(Reading(PathStem(path), flipped.value, unit));
  }
}
