/** The older reader (GUI/Data_Reader.py): currents normalised to milliamps,
    a single Gamry curve located by an exact marker line, and no SP-150e
    support. The orientation flip it imports from GUI/instruments.py is not
    part of this model; the current revision's flip stands in for it. */
module GuiDataReader {
  import opened Wrappers
  import opened Strs
  import opened Frames
  import Instruments
  import DataReader

  /** The factor that brings a current in `unit` to milliamps. */
  function MilliampFactor(unit: string): real
  {
    if unit == "A" || unit == "I" then 1000.0
    else if unit == "mA" || unit == "Im" then 1.0
    else if unit == [DataReader.Micro, 'A'] || unit == ['I', DataReader.Micro] then 1.0 / 1000.0
    else 1.0
  }

  /** `convert_current(current_unit, df)` of this revision: the same tokens
      as the current one, scaled to mA; any other token exits the app. */
  function ConvertCurrent(unit: Option<string>, f: Frame): (r: Result<Frame>)
    ensures r.Ok? <==> unit.Some? && DataReader.KnownUnit(unit.value)
    ensures r.Err? ==> r.error.AppExit?
    ensures r.Ok? ==> |r.value| == |f| && forall k :: 0 <= k < |f| ==> r.value[k].v == f[k].v
    ensures r.Ok? && unit.value in {"A", "I"} ==> forall k :: 0 <= k < |f| ==> r.value[k].i == f[k].i * 1000.0
    ensures r.Ok? && unit.value in {"mA", "Im"} ==> r.value == f
    ensures r.Ok? && unit.value in {[DataReader.Micro, 'A'], ['I', DataReader.Micro]} ==>
      forall k :: 0 <= k < |f| ==> r.value[k].i * 1000.0 == f[k].i
  {
    if unit.Some? && DataReader.KnownUnit(unit.value) then
      var r := DataReader.ScaleCurrents(f, MilliampFactor(unit.value));
      assert unit.value in {"mA", "Im"} ==> r == f;
      Ok(r)
    else Err(AppExit("unexpected current unit"))
  }

  /** The two revisions accept the same tokens, and this one's currents are
      exactly 1000 times the current revision's. */
  lemma MilliampsAreThousandAmps(unit: Option<string>, f: Frame)
    ensures ConvertCurrent(unit, f).Ok? <==> DataReader.ConvertCurrent(unit, f).Ok?
    ensures ConvertCurrent(unit, f).Ok? ==>
      var mA, amps := ConvertCurrent(unit, f).value, DataReader.ConvertCurrent(unit, f).value;
      |mA| == |amps| && forall k :: 0 <= k < |mA| ==> mA[k].v == amps[k].v && mA[k].i == 1000.0 * amps[k].i
  {
  }

  const CurveOne := "CURVE1\tTABLE\n"

  /** `lines.index(x)`: the first line equal to `x`. */
  function IndexOfLine(lines: seq<string>, x: string): (r: Option<nat>)
    ensures r.Some? ==> r.value < |lines| && lines[r.value] == x && forall j :: 0 <= j < r.value ==> lines[j] != x
    ensures r.None? ==> x !in lines
  {
    if lines == [] then None
    else if lines[0] == x then Some(0)
    else match IndexOfLine(lines[1..], x)
      case None => None
      case Some(j) => Some(j + 1)
  }

  /** The unit token of the Gamry branch: field 3 of the line after the
      first line that is exactly "CURVE1\tTABLE\n" (lines keep their
      newline); no such line raises ValueError, a short or missing unit
      line IndexError. */
  function GamryUnit(lines: seq<string>): (r: Result<string>)
    ensures CurveOne !in lines ==> r.Err? && r.error.ValueError?
    ensures r.Ok? ==> exists i :: (0 <= i < |lines| - 1 && lines[i] == CurveOne
      && (forall j :: 0 <= j < i ==> lines[j] != CurveOne)
      && |DataReader.Fields(lines[i + 1])| > 3 && r.value == DataReader.Fields(lines[i + 1])[3])
  {
    match IndexOfLine(lines, CurveOne)
    case None => Err(ValueError("'CURVE1\\tTABLE\\n' is not in list"))
    case Some(i) =>
      if i + 1 >= |lines| then Err(IndexError("list index out of range"))
      else
        var fields := DataReader.Fields(lines[i + 1]);
        if |fields| < 4 then Err(IndexError("list index out of range")) else Ok(fields[3])
  }

  /** A table row after the fixed header skip: the point-number cell as text
      and the voltage and current. */
  datatype PtRow = PtRow(pt: string, sample: Sample)

  /** `df[df["Pt"].str.contains(r'^\d+$')]`: the rows whose point number is
      all digits, in order, without the Pt column. */
  function Counted(rows: seq<PtRow>): (f: Frame)
    ensures |f| <= |rows|
    ensures forall x :: x in f <==> exists k :: 0 <= k < |rows| && AllDigits(rows[k].pt) && rows[k].sample == x
  {
    if rows == [] then []
    else
      var rest := Counted(rows[1..]);
      assert forall k :: 0 <= k < |rows| - 1 ==> rows[1..][k] == rows[k + 1];
      (if AllDigits(rows[0].pt) then [rows[0].sample] else []) + rest
  }

  /** A table whose every point number is all digits loses nothing. */
  lemma {:induction false} CountedAllRows(rows: seq<PtRow>)
    requires forall k :: 0 <= k < |rows| ==> AllDigits(rows[k].pt)
    ensures Counted(rows) == seq(|rows|, k requires 0 <= k < |rows| => rows[k].sample)
  {
    if rows != [] {
      CountedAllRows(rows[1..]);
    }
  }

  /** `IVDataReader.read()` of this revision. `table` is what `read_csv`
      yields for SMU and PalmSens4 files and `ptTable` the Gamry table after
      the fixed 65-line skip and the column drops. */
  method Read(potentiostat: string, path: string, lines: seq<string>, table: Frame, ptTable: seq<PtRow>)
    returns (r: Result<DataReader.Reading>)
    ensures potentiostat !in {"SMU", "Gamry", "PalmSens4"} ==> r.Err? && r.error.ValueError?
    ensures r.Ok? ==> r.value.name == DataReader.PathStem(path) && |r.value.frame| > 0
    ensures potentiostat == "SMU" ==> ((r.Ok? <==> |table| > 0)
      && (r.Ok? ==> r.value.unit == Some("I") && r.value.frame == Instruments.Flipped(ConvertCurrent(Some("I"), table).value)))
    ensures potentiostat == "Gamry" ==> (r.Ok? <==> GamryUnit(lines).Ok? && DataReader.KnownUnit(GamryUnit(lines).value) && Counted(ptTable) != [])
    ensures potentiostat == "Gamry" && r.Ok? ==> (r.value.unit == Some(GamryUnit(lines).value)
      && r.value.frame == Instruments.Flipped(ConvertCurrent(r.value.unit, Counted(ptTable)).value))
    ensures potentiostat == "PalmSens4" && (forall j :: 0 <= j < |lines| ==> !DataReader.IsUnitLine(lines[j])) ==>
      r.Err? && r.error.NeverReturns?
    ensures potentiostat == "PalmSens4" ==> var u := DataReader.PalmSensUnit(lines);
      (r.Ok? <==> u.Some? && DataReader.KnownUnit(u.value) && |table| > 0)
      && (r.Ok? ==> r.value.unit == u && r.value.frame == Instruments.Flipped(ConvertCurrent(u, table).value))
  {
    var df: Frame;
    var unit: Option<string>;
    if potentiostat == "SMU" {
      unit := Some("I");
      var c := ConvertCurrent(unit, table);
      df := c.value;
    } else if potentiostat == "Gamry" {
      var u := GamryUnit(lines);
      if u.Err? {
        return Err(u.error);
      }
      unit := Some(u.value);
      var c := ConvertCurrent(unit, Counted(ptTable));
      if c.Err? {
        return Err(c.error);
      }
      df := c.value;
    } else if potentiostat == "PalmSens4" {
      var u := DataReader.ScanPalmSensUnit(lines);
      if u.Err? {
        return Err(u.error);
      }
      unit := Some(u.value);
      var c := ConvertCurrent(unit, table);
      if c.Err? {
        return Err(c.error);
      }
      df := c.value;
    } else {
      return Err(ValueError("No matching potentiostat found for path"));
    }
    var flipped := DataReader.FlipFrame(df);
    if flipped.Err? {
      return Err(flipped.error);
    }
    r := Ok(DataReader.Reading(DataReader.PathStem(path), flipped.value, unit));
  }
}
