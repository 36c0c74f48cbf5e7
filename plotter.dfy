/** The workbook writer of the JV plotter (JV_plotter_GUI/Plotter.py): the
    device sheets' names, the row offsets it stores back into every device,
    the J–V–P data rows and the 'Used files' column, and the aging sheet's
    rows of absolute, relative and error-band values. The workbook itself is
    modelled as what is written into it: one `Sheet` per device and the
    aging rows; formats, colours and charts are left out. */
module Plotter {
  import opened Wrappers
  import opened Dicts
  import opened Frames
  import opened Records
  import opened Strs
  import DF = DeviceFilter
  import PM = PixelMerger

  // ---------------------------------------------------------------------
  // What the writer reads of a device.

  /** 'sweep_indexes_data': the 1-based sheet rows where the sweeps lie. */
  datatype Offsets = Offsets(allDataLength: nat, reverseStartRow: nat, forwardStartRow: nat)

  /** What `set_worksheets` stores into a device: 'sheet_name' and the offsets. */
  datatype Stamp = Stamp(sheetName: string, offsets: Offsets)

  /** One device of `matched_devices` as the writer reads it, from a plain
      record or a merged substrate; `None` stands for a missing key. */
  datatype Device = Device(
    data: Dict<string, Frame>,
    used: Option<UsedFiles>,
    area: Option<real>,
    light: Option<real>,
    distance: Option<real>,
    hIndex: Option<Value>,
    parameters: Option<Dict<string, Dict<string, Value>>>,
    stamp: Option<Stamp>)

  type Devices = Dict<string, Dict<string, Device>>

  /** A table of plain numbers read as possibly non-finite values. */
  function Finites(t: Params): (r: Dict<string, Value>)
    ensures Keys(r) == Keys(t)
    ensures forall k :: 0 <= k < |t| ==> r[k] == (t[k].0, Finite(t[k].1))
  {
    seq(|t|, k requires 0 <= k < |t| => (t[k].0, Finite(t[k].1)))
  }

  function FinitesAll(p: Dict<string, Params>): (r: Dict<string, Dict<string, Value>>)
    ensures Keys(r) == Keys(p)
    ensures forall k :: 0 <= k < |p| ==> r[k] == (p[k].0, Finites(p[k].1))
  {
    seq(|p|, k requires 0 <= k < |p| => (p[k].0, Finites(p[k].1)))
  }

  /** A record that no merge touched. */
  function FromRecord(r: Record): Device
  {
    Device(r.data, r.used, r.area, r.light, r.distance, r.hIndex,
      if r.parameters.None? then None else Some(FinitesAll(r.parameters.value)), None)
  }

  /** An entry of the merged folders: a substrate carries its agreed area,
      its averaged tables and its list of files. */
  function FromEntry(e: PM.Entry): Device
  {
    match e
    case Kept(r) => FromRecord(r)
    case Merged(s) =>
      Device(s.data, Some(Many(s.used)), Some(s.settings.area), Some(s.settings.light), Some(s.settings.distance),
        s.hIndex, Some(s.parameters), None)
  }

  // ---------------------------------------------------------------------
  // Sheet names.

  /** Excel's limit on the length of a worksheet name. */
  const SHEET_NAME_LIMIT: nat := 31

  /** `s[:31] if len(s) > 31 else s`. */
  function Truncated(s: string): (r: string)
    ensures |r| <= SHEET_NAME_LIMIT
    ensures |s| <= SHEET_NAME_LIMIT ==> r == s
    ensures |s| > SHEET_NAME_LIMIT ==> |r| == SHEET_NAME_LIMIT && r == s[..SHEET_NAME_LIMIT]
  {
    if |s| > SHEET_NAME_LIMIT then s[..SHEET_NAME_LIMIT] else s
  }

  /** `f"{folder} {device}"`. */
  function Labelled(folder: string, device: string): string
  {
    folder + " " + device
  }

  /** Some folder and device together are longer than a sheet name may be. */
  predicate LongNameFound(data: Devices)
  {
    exists i, j :: 0 <= i < |data| && 0 <= j < |data[i].1| && |Labelled(data[i].0, data[i].1[j].0)| > SHEET_NAME_LIMIT
  }

  /** The sheet name of a device of the `counter`-th folder (from 1). */
  function SheetName(folder: string, counter: nat, device: string, long: bool, single: bool): (name: string)
    ensures |name| <= SHEET_NAME_LIMIT
  {
    var labelled := if long then Labelled(NatToString(counter), device) else Labelled(folder, device);
    Truncated(if single then device else labelled)
  }

  /** With one folder the sheet is named after the device alone; otherwise
      after the folder, or after its counter once any name is too long. The
      name is the first 31 characters of that label. */
  lemma SheetNameMeaning(folder: string, counter: nat, device: string, long: bool, single: bool)
    ensures single && |device| <= SHEET_NAME_LIMIT ==> SheetName(folder, counter, device, long, single) == device
    ensures var name := SheetName(folder, counter, device, long, single);
      var text := if single then device else if long then NatToString(counter) + " " + device else folder + " " + device;
      name <= text && |name| == if |text| < SHEET_NAME_LIMIT then |text| else SHEET_NAME_LIMIT
    ensures !single && !long && |Labelled(folder, device)| <= SHEET_NAME_LIMIT ==>
      SheetName(folder, counter, device, long, single) == folder + " " + device
  {
  }

  // ---------------------------------------------------------------------
  // Row offsets and data rows.

  const FORWARD := "1_Forward"
  const REVERSE := "2_Reverse"

  /** The offsets of a device's sweeps: the forward sweep from row 2, the
      reverse sweep right after it, and one row past both. Both keys must
      exist; '1_Forward' is read first. */
  function OffsetsOf(frames: Dict<string, Frame>): (r: Result<Offsets>)
    ensures r.Ok? <==> Has(frames, FORWARD) && Has(frames, REVERSE)
    ensures !Has(frames, FORWARD) ==> r == Err(KeyError(FORWARD))
    ensures Has(frames, FORWARD) && !Has(frames, REVERSE) ==> r == Err(KeyError(REVERSE))
    ensures r.Ok? ==>
      (r.value.forwardStartRow == 2
       && r.value.reverseStartRow == |Get(frames, FORWARD)| + 2
       && r.value.allDataLength == |Get(frames, FORWARD)| + |Get(frames, REVERSE)| + 2)
  {
    match Lookup(frames, FORWARD)
    case None => Err(KeyError(FORWARD))
    case Some(f) =>
      match Lookup(frames, REVERSE)
      case None => Err(KeyError(REVERSE))
      case Some(b) => Ok(Offsets(|f| + |b| + 2, |f| + 2, 2))
  }

  /** One sheet row: J in mA/cm² in column A, V in B, P in C. */
  datatype DataRow = DataRow(j: Value, v: real, p: real)

  /** `1000 * I / area` (numpy gives inf or NaN for a zero area), V, and `I * V`. */
  function RowOf(s: Sample, area: real): DataRow
  {
    DataRow(if area == 0.0 then NonFinite else Finite(1000.0 * s.i / area), s.v, s.i * s.v)
  }

  /** The samples of all sweeps, in the order of the sweeps. */
  function AllSamples(frames: Dict<string, Frame>): seq<Sample>
  {
    if frames == [] then [] else AllSamples(frames[..|frames| - 1]) + frames[|frames| - 1].1
  }

  /** The rows written below the header: one per sample. The area is read
      for each row, so a device without one fails at its first sample. */
  function DataRows(frames: Dict<string, Frame>, area: Option<real>): Result<seq<DataRow>>
  {
    var samples := AllSamples(frames);
    if samples == [] then Ok([])
    else if area.None? then Err(KeyError(AREA))
    else Ok(RowsOf(samples, area.value))
  }

  function RowsOf(samples: seq<Sample>, area: real): (rows: seq<DataRow>)
    ensures |rows| == |samples| && forall k :: 0 <= k < |samples| ==> rows[k] == RowOf(samples[k], area)
  {
    seq(|samples|, k requires 0 <= k < |samples| => RowOf(samples[k], area))
  }

  lemma AllSamplesSnoc(frames: Dict<string, Frame>, n: nat)
    requires 0 < n <= |frames|
    ensures AllSamples(frames[..n]) == AllSamples(frames[..n - 1]) + frames[n - 1].1
  {
    PrefixSnoc(frames, n);
  }

  /** The samples of the first sweeps come first. */
  lemma {:induction false} AllSamplesGrow(frames: Dict<string, Frame>, n: nat)
    requires n <= |frames|
    ensures |AllSamples(frames[..n])| <= |AllSamples(frames)|
    decreases |frames| - n
  {
    if n < |frames| {
      AllSamplesSnoc(frames, n + 1);
      AllSamplesGrow(frames, n + 1);
    } else {
      PrefixAll(frames);
    }
  }

  /** Each row holds the sample's voltage, its power, and its current per
      unit area in mA/cm². */
  lemma RowMeaning(s: Sample, area: real)
    ensures RowOf(s, area).v == s.v && RowOf(s, area).p == s.v * s.i
    ensures RowOf(s, area).j.Finite? <==> area != 0.0
    ensures area != 0.0 ==> RowOf(s, area).j.x * area == 1000.0 * s.i
  {
  }

  /** For a device holding just its two sweeps, the offsets are where the
      sweeps were written: the 1-based sheet row `forward_start_row + k`
      holds the k-th forward sample, `reverse_start_row + k` the k-th
      reverse one, and the data ends one row before `all_data_length`. */
  lemma OffsetsLocateSweeps(frames: Dict<string, Frame>, area: real)
    requires Keys(frames) == [FORWARD, REVERSE]
    ensures OffsetsOf(frames).Ok? && DataRows(frames, Some(area)).Ok?
    ensures var o, rows := OffsetsOf(frames).value, DataRows(frames, Some(area)).value;
      var f, b := Get(frames, FORWARD), Get(frames, REVERSE);
      |rows| + 2 == o.allDataLength
      && (forall k :: 0 <= k < |f| ==> rows[o.forwardStartRow - 2 + k] == RowOf(f[k], area))
      && (forall k :: 0 <= k < |b| ==> rows[o.reverseStartRow - 2 + k] == RowOf(b[k], area))
  {
    TwoSweeps(frames);
    var f, b := frames[0].1, frames[1].1;
    var rows := TwoSweepRows(f, b, area);
    assert DataRows(frames, Some(area)) == Ok(rows) by {
      if f + b == [] {
        assert rows == [];
      }
    }
    assert OffsetsOf(frames) == Ok(Offsets(|f| + |b| + 2, |f| + 2, 2));
  }

  /** The rows of two sweeps: the forward ones, then the reverse ones. */
  lemma TwoSweepRows(f: seq<Sample>, b: seq<Sample>, area: real) returns (rows: seq<DataRow>)
    ensures rows == RowsOf(f + b, area) && |rows| == |f| + |b|
    ensures forall k :: 0 <= k < |f| ==> rows[k] == RowOf(f[k], area)
    ensures forall k :: 0 <= k < |b| ==> rows[|f| + k] == RowOf(b[k], area)
  {
    rows := RowsOf(f + b, area);
    forall k | 0 <= k < |f|
      ensures rows[k] == RowOf(f[k], area)
    {
      assert (f + b)[k] == f[k];
    }
    forall k | 0 <= k < |b|
      ensures rows[|f| + k] == RowOf(b[k], area)
    {
      assert (f + b)[|f| + k] == b[k];
    }
  }

  /** The two sweeps in order: their samples, forward first. */
  lemma TwoSweeps(frames: Dict<string, Frame>)
    requires Keys(frames) == [FORWARD, REVERSE]
    ensures Get(frames, FORWARD) == frames[0].1 && Get(frames, REVERSE) == frames[1].1
    ensures AllSamples(frames) == frames[0].1 + frames[1].1
  {
    assert frames[0].0 == FORWARD && frames[1].0 == REVERSE;
    var f, b := frames[0].1, frames[1].1;
    assert AllSamples(frames[..1]) == f by {
      assert frames[..1][..0] == [];
    }
    assert AllSamples(frames) == f + b by {
      assert frames[..1] == frames[..|frames| - 1];
    }
    assert Get(frames, REVERSE) == b by {
      assert frames[1..][0].0 == REVERSE;
    }
  }

  /** What `write_column` is handed for 'Used files': a single name as a
      one-element list, a pair as its two members, a merged list as it is. */
  function Listed(u: UsedFiles): seq<DF.Used>
  {
    match u
    case One(f) => if f.File? then [f] else [f.first, f.second]
    case Many(us) => us
  }

  /** xlsxwriter's `write` refuses a tuple. */
  const UNSUPPORTED_TUPLE := "Unsupported type <class 'tuple'> in write()"

  /** 'Used files' as the column lists it, one name per cell. A device
      without the key raises KeyError; a merged list holding a pair (a
      tuple) raises xlsxwriter's TypeError on that cell. */
  function UsedColumn(used: Option<UsedFiles>): (r: Result<seq<DF.Used>>)
    ensures r.Err? <==> used.None? || exists k :: 0 <= k < |Listed(used.value)| && Listed(used.value)[k].Both?
    ensures used.Some? && r.Err? ==> r == Err(TypeError(UNSUPPORTED_TUPLE))
    ensures r.Ok? ==> r.value == Listed(used.value) && forall k :: 0 <= k < |r.value| ==> r.value[k].File?
    ensures used.Some? && used.value.One? && used.value.file.File? ==> r == Ok([used.value.file])
  {
    match used
    case None => Err(KeyError("Used files"))
    case Some(u) =>
      var cells := Listed(u);
      if exists k :: 0 <= k < |cells| && cells[k].Both? then Err(TypeError(UNSUPPORTED_TUPLE)) else Ok(cells)
  }

  /** The file names a 'Used files' entry holds, a pair's in its order. */
  function Names(u: DF.Used): seq<string>
  {
    match u
    case File(n) => [n]
    case Both(a, b) => Names(a) + Names(b)
  }

  /** The names of the entries one after another. */
  function FlatNames(us: seq<DF.Used>): seq<string>
  {
    if us == [] then [] else Names(us[0]) + FlatNames(us[1..])
  }

  /** A name some entry holds, however deeply paired. */
  predicate Mentions(u: DF.Used, n: string)
  {
    match u
    case File(m) => m == n
    case Both(a, b) => Mentions(a, n) || Mentions(b, n)
  }

  /** The 'Used files' column as intended: every pair flattened into its
      names, so that the column holds file names only. A device without
      the key still raises KeyError. */
  function FlatUsedColumn(used: Option<UsedFiles>): (r: Result<seq<string>>)
    ensures r.Err? <==> used.None?
    ensures r.Err? ==> r == Err(KeyError("Used files"))
  {
    match used
    case None => Err(KeyError("Used files"))
    case Some(u) => Ok(FlatNames(Listed(u)))
  }

  lemma {:induction false} NamesMentions(u: DF.Used, n: string)
    ensures n in Names(u) <==> Mentions(u, n)
  {
    match u
    case File(m) =>
    case Both(a, b) =>
      NamesMentions(a, n);
      NamesMentions(b, n);
  }

  lemma {:induction false} FlatNamesMentions(us: seq<DF.Used>, n: string)
    ensures n in FlatNames(us) <==> exists k :: 0 <= k < |us| && Mentions(us[k], n)
  {
    if us != [] {
      NamesMentions(us[0], n);
      FlatNamesMentions(us[1..], n);
      assert forall k :: 0 < k < |us| ==> us[k] == us[1..][k - 1];
      if Mentions(us[0], n) {
        assert 0 < |us| && Mentions(us[0], n);
      } else if n in FlatNames(us[1..]) {
        var k :| 0 <= k < |us[1..]| && Mentions(us[1..][k], n);
        assert Mentions(us[k + 1], n);
      }
    }
  }

  /** The intended column lists exactly the names the 'Used files' value
      holds, pairs included. */
  lemma FlatUsedComplete(u: UsedFiles, n: string)
    ensures FlatUsedColumn(Some(u)).Ok?
    ensures n in FlatUsedColumn(Some(u)).value <==> exists k :: 0 <= k < |Listed(u)| && Mentions(Listed(u)[k], n)
  {
    FlatNamesMentions(Listed(u), n);
  }

  /** Names of entries that are all single files. */
  lemma {:induction false} FlatNamesOfFiles(us: seq<DF.Used>)
    requires forall k :: 0 <= k < |us| ==> us[k].File?
    ensures FlatNames(us) == seq(|us|, k requires 0 <= k < |us| => us[k].name)
  {
    if us != [] {
      FlatNamesOfFiles(us[1..]);
    }
  }

  /** Where the column as written succeeds, the intended one writes the
      same names, in the same order. */
  lemma FlatUsedAgrees(used: Option<UsedFiles>)
    requires UsedColumn(used).Ok?
    ensures var cells := UsedColumn(used).value;
      FlatUsedColumn(used) == Ok(seq(|cells|, k requires 0 <= k < |cells| => cells[k].name))
  {
    FlatNamesOfFiles(UsedColumn(used).value);
  }

  /** A pair the merged list holds, where the column as written raises
      TypeError, becomes the pair's names. */
  lemma PairListed(a: string, b: string)
    ensures UsedColumn(Some(Many([DF.Both(DF.File(a), DF.File(b))]))) == Err(TypeError(UNSUPPORTED_TUPLE))
    ensures FlatUsedColumn(Some(Many([DF.Both(DF.File(a), DF.File(b))]))) == Ok([a, b])
  {
    var us := [DF.Both(DF.File(a), DF.File(b))];
    assert Listed(Many(us))[0].Both?;
    assert Listed(Many(us)) == us;
    assert Names(DF.File(a)) == [a] && Names(DF.File(b)) == [b];
    assert us[1..] == [] && FlatNames(us[1..]) == [];
    assert FlatNames(us) == [a, b];
  }

  // ---------------------------------------------------------------------
  // `set_worksheets`.

  // ---------------------------------------------------------------------
  // Cells.

  /** What a cell receives: text, a formatted blank, a number, or the
      formula `='sheet'!<column><row>` with 0-based `col` and `row`. */
  datatype Content = Str(s: string) | Blank | Number(v: Value) | Ref(sheet: string, col: nat, row: nat)

  datatype Write = Write(row: nat, col: nat, content: Content)

  /** What a cell holds after `ws`: the last write to it, if any. */
  function CellAt(ws: seq<Write>, row: nat, col: nat): (r: Option<Content>)
    ensures r.Some? ==> Write(row, col, r.value) in ws
  {
    if ws == [] then None
    else if ws[|ws| - 1].row == row && ws[|ws| - 1].col == col then Some(ws[|ws| - 1].content)
    else CellAt(ws[..|ws| - 1], row, col)
  }

  /** Later writes hide earlier ones to the same cell, and only those. */
  lemma {:induction false} CellAtConcat(a: seq<Write>, b: seq<Write>, row: nat, col: nat)
    ensures CellAt(a + b, row, col) == if CellAt(b, row, col).Some? then CellAt(b, row, col) else CellAt(a, row, col)
  {
    if b != [] {
      var n := |b|;
      assert (a + b)[..|a + b| - 1] == a + b[..n - 1];
      CellAtConcat(a, b[..n - 1], row, col);
    } else {
      assert a + b == a;
    }
  }

  /** A cell none of `ws` writes stays empty. */
  lemma {:induction false} CellAtUntouched(ws: seq<Write>, row: nat, col: nat)
    requires forall w :: w in ws ==> w.row != row || w.col != col
    ensures CellAt(ws, row, col) == None
  {
    if ws != [] {
      CellAtUntouched(ws[..|ws| - 1], row, col);
    }
  }

  /** `write_center_across_selection(ws, (row, col), c, 3)`: the content,
      then formatted blanks in the two cells to its right. */
  function CenterAcross(row: nat, col: nat, c: Content): seq<Write>
  {
    [Write(row, col, c), Write(row, col + 1, Blank), Write(row, col + 2, Blank)]
  }

  /** `sweeps_list`: the directions of the value columns 5, 6 and 7 ('F',
      'G' and 'H'), and of the band columns 8, 9 and 10 when sorted. */
  const DIRECTIONS: seq<string> := ["Reverse", "Forward", "Average"]

  /** The first value column, 'F'. */
  const VALUE_COLUMN: nat := 5

  /** `set_headers`: the data columns' titles, the parameter names down
      column E, and the directions above the value (and band) columns. */
  function HeaderWrites(device: string, sorted: bool, stat: string): seq<Write>
  {
    TitleWrites(device) + NameWrites() + DirectionWrites(sorted, stat)
  }

  /** The titles of the J, V and P columns and of column E. */
  function TitleWrites(device: string): (ws: seq<Write>)
    ensures forall w :: w in ws ==> w.row < 2
  {
    [Write(0, 0, Str("J, mA/cm²")), Write(0, 1, Str("V, V")), Write(0, 2, Str("P, W")),
     Write(0, 4, Str(device)), Write(1, 4, Str("Parameters"))]
  }

  /** Key i's name on 0-based row i - 1 of column E, keys 3 to 15. */
  function NameWrites(): (ws: seq<Write>)
    ensures |ws| == 13 && forall k :: 0 <= k < 13 ==> ws[k] == Write(k + 2, 4, Str(ParameterDict[k + 2]))
  {
    seq(13, k requires 0 <= k < 13 => Write(k + 2, 4, Str(ParameterDict[k + 2])))
  }

  /** 'Values' across F to H, the directions below it, and, when sorted,
      the error metric's title and directions across I to K. */
  function DirectionWrites(sorted: bool, stat: string): (ws: seq<Write>)
    ensures forall w :: w in ws ==> w.row < 2
  {
    CenterAcross(0, VALUE_COLUMN, Str("Values"))
    + DirectionRow(VALUE_COLUMN)
    + (if sorted then CenterAcross(0, 8, Str("Selected error metric: " + stat)) + DirectionRow(8) else [])
  }

  /** Reverse, Forward and Average on row 1, from column `first` on. */
  function DirectionRow(first: nat): seq<Write>
  {
    [Write(1, first, Str(DIRECTIONS[0])), Write(1, first + 1, Str(DIRECTIONS[1])), Write(1, first + 2, Str(DIRECTIONS[2]))]
  }

  /** Each of the three columns shows its own direction. */
  lemma DirectionRowCells(first: nat, col: nat)
    requires first <= col < first + 3
    ensures CellAt(DirectionRow(first), 1, col) == Some(Str(DIRECTIONS[col - first]))
  {
    var d := DirectionRow(first);
    if col < first + 2 {
      assert d[..|d| - 1] == d[..2];
      if col == first {
        var d2 := d[..2];
        assert d2[..|d2| - 1] == [d[0]];
        assert CellAt(d2, 1, col) == CellAt([d[0]], 1, col);
      }
    }
  }

  /** `device_data['Parameters'][sweep]`. */
  function SweepTable(dev: Device, sweep: string): (r: Result<Dict<string, Value>>)
    ensures r.Ok? <==> dev.parameters.Some? && Has(dev.parameters.value, sweep)
    ensures dev.parameters.None? ==> r == Err(KeyError("Parameters"))
    ensures dev.parameters.Some? && !Has(dev.parameters.value, sweep) ==> r == Err(KeyError(sweep))
    ensures r.Ok? ==> r.value == Get(dev.parameters.value, sweep)
  {
    if dev.parameters.None? then Err(KeyError("Parameters"))
    else match Lookup(dev.parameters.value, sweep)
      case None => Err(KeyError(sweep))
      case Some(t) => Ok(t)
  }

  /** `table[name]`. */
  function Entry(t: Dict<string, Value>, name: string): (r: Result<Value>)
    ensures r.Ok? <==> Has(t, name)
    ensures r.Ok? ==> r.value == Get(t, name)
    ensures r.Err? ==> r.error == KeyError(name)
  {
    match Lookup(t, name)
    case None => Err(KeyError(name))
    case Some(v) => Ok(v)
  }

  /** `device_data[name]` for the entries written below the metrics. */
  function DeviceField(dev: Device, name: string): (r: Result<Value>)
    ensures name == AREA ==> r == if dev.area.Some? then Ok(Finite(dev.area.value)) else Err(KeyError(AREA))
    ensures r.Err? ==> r.error == KeyError(name)
  {
    if name == H_INDEX then (if dev.hIndex.Some? then Ok(dev.hIndex.value) else Err(KeyError(name)))
    else if name == AREA then (if dev.area.Some? then Ok(Finite(dev.area.value)) else Err(KeyError(name)))
    else if name == LIGHT then (if dev.light.Some? then Ok(Finite(dev.light.value)) else Err(KeyError(name)))
    else if name == DISTANCE then (if dev.distance.Some? then Ok(Finite(dev.distance.value)) else Err(KeyError(name)))
    else Err(KeyError(name))
  }

  /** One (row, column) step of `write_parameters`: below row 11 the
      direction's metric, and its error metric three columns right when the
      data are sorted and it is present; from row 11 on, the device's own
      entry across the three value columns of the first one. */
  function CellWrites(dev: Device, row: nat, col: nat, sorted: bool, stat: string): Result<seq<Write>>
    requires 2 <= row < 15 && VALUE_COLUMN <= col < VALUE_COLUMN + 3
  {
    var name := ParameterDict[row];
    if row >= 11 then
      if col == VALUE_COLUMN then
        var v :- DeviceField(dev, name);
        Ok(CenterAcross(row, col, Number(v)))
      else Ok([])
    else
      var t :- SweepTable(dev, DIRECTIONS[col - VALUE_COLUMN]);
      var v :- Entry(t, name);
      var band := Lookup(t, name + " " + stat);
      Ok([Write(row, col, Number(v))] + if sorted && band.Some? then [Write(row, col + 3, Number(band.value))] else [])
  }

  /** The steps of a loop that writes as it goes, run in order: all their
      writes, or the first step's error. */
  function Chain<T>(rs: seq<Result<seq<T>>>): Result<seq<T>>
  {
    if rs == [] then Ok([])
    else
      var prev :- Chain(rs[..|rs| - 1]);
      var last :- rs[|rs| - 1];
      Ok(prev + last)
  }

  /** One step more: the chain goes on with its writes or stops at its error. */
  lemma ChainSnoc<T>(rs: seq<Result<seq<T>>>, n: nat)
    requires n < |rs|
    ensures Chain(rs[..n + 1]) ==
      if Chain(rs[..n]).Err? then Chain(rs[..n])
      else if rs[n].Err? then Err(rs[n].error)
      else Ok(Chain(rs[..n]).value + rs[n].value)
  {
    assert rs[..n + 1][..n] == rs[..n];
  }

  /** The chain succeeds when every step does, with their writes in order;
      otherwise it fails with the first failing step's error. */
  lemma {:induction false} ChainMeaning<T>(rs: seq<Result<seq<T>>>)
    ensures Chain(rs).Ok? <==> forall i :: 0 <= i < |rs| ==> rs[i].Ok?
    ensures Chain(rs).Err? ==>
      exists i :: 0 <= i < |rs| && rs[i].Err? && Chain(rs).error == rs[i].error &&
        forall j :: 0 <= j < i ==> rs[j].Ok?
  {
    if rs != [] {
      var init := rs[..|rs| - 1];
      ChainMeaning(init);
      assert forall i :: 0 <= i < |init| ==> init[i] == rs[i];
    }
  }

  lemma {:induction false} ChainStaysFailed<T>(rs: seq<Result<seq<T>>>, n: nat)
    requires n <= |rs| && Chain(rs[..n]).Err?
    ensures Chain(rs) == Chain(rs[..n])
    decreases |rs| - n
  {
    if n < |rs| {
      ChainSnoc(rs, n);
      ChainStaysFailed(rs, n + 1);
    } else {
      PrefixAll(rs);
    }
  }

  /** Three steps that all succeed write their writes one after another. */
  lemma ChainThree<T>(a: Result<seq<T>>, b: Result<seq<T>>, c: Result<seq<T>>)
    requires Chain([a, b, c]).Ok?
    ensures a.Ok? && b.Ok? && c.Ok? && Chain([a, b, c]).value == a.value + b.value + c.value
  {
    var rs := [a, b, c];
    ChainSnoc(rs, 0);
    ChainSnoc(rs, 1);
    ChainSnoc(rs, 2);
    assert rs[..0] == [] && rs[..3] == rs;
    assert Chain(rs[..1]).value == a.value;
  }

  /** Steps that each write one row of their own, from row 2 on: a cell
      holds what the step of its row left in it. */
  lemma {:induction false} ChainRows(rs: seq<Result<seq<Write>>>, row: nat, col: nat)
    requires Chain(rs).Ok?
    requires forall i, w :: 0 <= i < |rs| && rs[i].Ok? && w in rs[i].value ==> w.row == i + 2
    ensures 2 <= row < |rs| + 2 ==>
      (rs[row - 2].Ok? && CellAt(Chain(rs).value, row, col) == CellAt(rs[row - 2].value, row, col))
    ensures !(2 <= row < |rs| + 2) ==> CellAt(Chain(rs).value, row, col) == None
  {
    if rs != [] {
      var n := |rs| - 1;
      var init := rs[..n];
      assert forall i :: 0 <= i < n ==> init[i] == rs[i];
      ChainRows(init, row, col);
      var prev := Chain(init).value;
      CellAtConcat(prev, rs[n].value, row, col);
      if row != n + 2 {
        CellAtUntouched(rs[n].value, row, col);
      } else {
        ChainRowsBelow(init, n);
        CellAtUntouched(prev, row, col);
      }
    }
  }

  /** Such steps write only to rows 2 to |rs| + 1. */
  lemma {:induction false} ChainRowsBelow(rs: seq<Result<seq<Write>>>, n: nat)
    requires n == |rs| && Chain(rs).Ok?
    requires forall i, w :: 0 <= i < |rs| && rs[i].Ok? && w in rs[i].value ==> w.row == i + 2
    ensures forall w :: w in Chain(rs).value ==> 2 <= w.row < n + 2
  {
    if rs != [] {
      var init := rs[..n - 1];
      assert forall i :: 0 <= i < n - 1 ==> init[i] == rs[i];
      ChainRowsBelow(init, n - 1);
    }
  }

  /** The steps of a row of `write_parameters`, one per value column. */
  function RowSteps(dev: Device, row: nat, sorted: bool, stat: string): seq<Result<seq<Write>>>
    requires 2 <= row < 15
  {
    [CellWrites(dev, row, 5, sorted, stat), CellWrites(dev, row, 6, sorted, stat), CellWrites(dev, row, 7, sorted, stat)]
  }

  /** A row of `write_parameters`. */
  function RowWrites(dev: Device, row: nat, sorted: bool, stat: string): Result<seq<Write>>
    requires 2 <= row < 15
  {
    Chain(RowSteps(dev, row, sorted, stat))
  }

  /** The rows of `write_parameters`, from row 2 (keys 3 to 15). */
  function ParameterSteps(dev: Device, sorted: bool, stat: string): (rs: seq<Result<seq<Write>>>)
    ensures |rs| == 13 && forall i :: 0 <= i < 13 ==> rs[i] == RowWrites(dev, i + 2, sorted, stat)
  {
    seq(13, i requires 0 <= i < 13 => RowWrites(dev, i + 2, sorted, stat))
  }

  /** All of `write_parameters`. */
  function ParameterWrites(dev: Device, sorted: bool, stat: string): Result<seq<Write>>
  {
    Chain(ParameterSteps(dev, sorted, stat))
  }

  /** Where one step writes: on its row, in its column and the band
      column three to the right, or, from row 11 on, across the value
      columns from the first. */
  lemma CellWritesPlace(dev: Device, row: nat, col: nat, sorted: bool, stat: string)
    requires 2 <= row < 15 && VALUE_COLUMN <= col < VALUE_COLUMN + 3
    requires CellWrites(dev, row, col, sorted, stat).Ok?
    ensures forall w :: w in CellWrites(dev, row, col, sorted, stat).value ==>
      w.row == row &&
      (row < 11 ==> w.col == col || w.col == col + 3) &&
      (row >= 11 ==> VALUE_COLUMN <= w.col < VALUE_COLUMN + 3)
  {
  }

  /** What one step leaves in its own cells. */
  lemma CellWritesAt(dev: Device, row: nat, col: nat, sorted: bool, stat: string)
    requires 2 <= row < 15 && VALUE_COLUMN <= col < VALUE_COLUMN + 3
    requires CellWrites(dev, row, col, sorted, stat).Ok?
    ensures var ws := CellWrites(dev, row, col, sorted, stat).value;
      var name := ParameterDict[row];
      if row < 11 then
        var t := SweepTable(dev, DIRECTIONS[col - VALUE_COLUMN]);
        t.Ok? && Has(t.value, name)
        && CellAt(ws, row, col) == Some(Number(Get(t.value, name)))
        && CellAt(ws, row, col + 3) ==
             if sorted && Has(t.value, name + " " + stat) then Some(Number(Get(t.value, name + " " + stat))) else None
      else
        col == VALUE_COLUMN ==> DeviceField(dev, name).Ok? && CellAt(ws, row, col) == Some(Number(DeviceField(dev, name).value))
  {
    var ws := CellWrites(dev, row, col, sorted, stat).value;
    if row < 11 {
      var t := SweepTable(dev, DIRECTIONS[col - VALUE_COLUMN]).value;
      var name := ParameterDict[row];
      var band := Lookup(t, name + " " + stat);
      var tail := if sorted && band.Some? then [Write(row, col + 3, Number(band.value))] else [];
      assert ws == [Write(row, col, Number(Get(t, name)))] + tail;
      CellAtConcat([Write(row, col, Number(Get(t, name)))], tail, row, col);
      CellAtConcat([Write(row, col, Number(Get(t, name)))], tail, row, col + 3);
      CellAtUntouched(tail, row, col);
      CellAtUntouched([Write(row, col, Number(Get(t, name)))], row, col + 3);
    } else if col == VALUE_COLUMN {
      var v := DeviceField(dev, ParameterDict[row]).value;
      assert ws == [Write(row, col, Number(v))] + [Write(row, col + 1, Blank), Write(row, col + 2, Blank)];
      CellOwned([Write(row, col, Number(v))], [Write(row, col + 1, Blank), Write(row, col + 2, Blank)], row, col);
    }
  }

  /** A whole row: each value column holds its direction's metric and each
      band column its error metric when written; from row 11 on the first
      value column holds the device's own entry. */
  lemma RowLayout(dev: Device, row: nat, col: nat, sorted: bool, stat: string)
    requires 2 <= row < 15 && VALUE_COLUMN <= col < VALUE_COLUMN + 3
    requires RowWrites(dev, row, sorted, stat).Ok?
    ensures var ws := RowWrites(dev, row, sorted, stat).value;
      var name := ParameterDict[row];
      if row < 11 then
        var t := SweepTable(dev, DIRECTIONS[col - VALUE_COLUMN]);
        t.Ok? && Has(t.value, name)
        && CellAt(ws, row, col) == Some(Number(Get(t.value, name)))
        && CellAt(ws, row, col + 3) ==
             if sorted && Has(t.value, name + " " + stat) then Some(Number(Get(t.value, name + " " + stat))) else None
      else
        col == VALUE_COLUMN ==> DeviceField(dev, name).Ok? && CellAt(ws, row, col) == Some(Number(DeviceField(dev, name).value))
  {
    var rs := RowSteps(dev, row, sorted, stat);
    ChainThree(rs[0], rs[1], rs[2]);
    var a, b, c := rs[0].value, rs[1].value, rs[2].value;
    CellWritesPlace(dev, row, 5, sorted, stat);
    CellWritesPlace(dev, row, 6, sorted, stat);
    CellWritesPlace(dev, row, 7, sorted, stat);
    CellWritesAt(dev, row, col, sorted, stat);
    if row < 11 {
      RowOwners(a, b, c, row, col);
    } else if col == VALUE_COLUMN {
      assert b == [] && c == [];
      assert a + b + c == a;
    }
  }

  /** Three steps of a row below 11, each writing its own value and band
      columns: a cell of either kind holds what its step left in it. */
  lemma RowOwners(a: seq<Write>, b: seq<Write>, c: seq<Write>, row: nat, col: nat)
    requires VALUE_COLUMN <= col < VALUE_COLUMN + 3
    requires forall w :: w in a ==> w.col == 5 || w.col == 8
    requires forall w :: w in b ==> w.col == 6 || w.col == 9
    requires forall w :: w in c ==> w.col == 7 || w.col == 10
    ensures var own := if col == 5 then a else if col == 6 then b else c;
      CellAt(a + b + c, row, col) == CellAt(own, row, col) &&
      CellAt(a + b + c, row, col + 3) == CellAt(own, row, col + 3)
  {
    assert a + b + c == a + (b + c);
    if col == 5 {
      CellOwned(a, b + c, row, col);
      CellOwned(a, b + c, row, col + 3);
    } else if col == 6 {
      CellOwned(b, c, row, col);
      CellOwnedLast(a, b + c, row, col);
      CellOwned(b, c, row, col + 3);
      CellOwnedLast(a, b + c, row, col + 3);
    } else {
      CellOwnedLast(a + b, c, row, col);
      CellOwnedLast(a + b, c, row, col + 3);
    }
  }

  /** A cell only `a` writes keeps what `a` left in it. */
  lemma CellOwned(a: seq<Write>, b: seq<Write>, row: nat, col: nat)
    requires forall w :: w in b ==> w.row != row || w.col != col
    ensures CellAt(a + b, row, col) == CellAt(a, row, col)
  {
    CellAtConcat(a, b, row, col);
    CellAtUntouched(b, row, col);
  }

  /** A cell `a` does not write holds what `b` left in it. */
  lemma CellOwnedLast(a: seq<Write>, b: seq<Write>, row: nat, col: nat)
    requires forall w :: w in a ==> w.row != row || w.col != col
    ensures CellAt(a + b, row, col) == CellAt(b, row, col)
  {
    CellAtConcat(a, b, row, col);
    CellAtUntouched(a, row, col);
  }

  /** Every write of a row's steps lies on that row, in a value or band column. */
  lemma RowPlace(dev: Device, row: nat, sorted: bool, stat: string)
    requires 2 <= row < 15 && RowWrites(dev, row, sorted, stat).Ok?
    ensures forall w :: w in RowWrites(dev, row, sorted, stat).value ==>
      w.row == row && VALUE_COLUMN <= w.col < VALUE_COLUMN + 6
  {
    var rs := RowSteps(dev, row, sorted, stat);
    ChainThree(rs[0], rs[1], rs[2]);
    CellWritesPlace(dev, row, 5, sorted, stat);
    CellWritesPlace(dev, row, 6, sorted, stat);
    CellWritesPlace(dev, row, 7, sorted, stat);
  }

  /** The parameter block of a device's sheet: a metric's value in its
      direction's column on the metric's row, its error metric three columns
      right when sorted and present (and nothing there otherwise), and from
      row 11 on the device's own entry in column F; rows outside 2 to 14
      stay empty. */
  lemma ParameterLayout(dev: Device, row: nat, col: nat, sorted: bool, stat: string)
    requires ParameterWrites(dev, sorted, stat).Ok?
    ensures !(2 <= row < 15) ==> CellAt(ParameterWrites(dev, sorted, stat).value, row, col) == None
    ensures 2 <= row < 15 && VALUE_COLUMN <= col < VALUE_COLUMN + 3 ==>
      var ws := ParameterWrites(dev, sorted, stat).value;
      var name := ParameterDict[row];
      if row < 11 then
        var t := SweepTable(dev, DIRECTIONS[col - VALUE_COLUMN]);
        t.Ok? && Has(t.value, name)
        && CellAt(ws, row, col) == Some(Number(Get(t.value, name)))
        && CellAt(ws, row, col + 3) ==
             if sorted && Has(t.value, name + " " + stat) then Some(Number(Get(t.value, name + " " + stat))) else None
      else
        col == VALUE_COLUMN ==> DeviceField(dev, name).Ok? && CellAt(ws, row, col) == Some(Number(DeviceField(dev, name).value))
  {
    var rs := ParameterSteps(dev, sorted, stat);
    ChainMeaning(rs);
    forall i, w | 0 <= i < |rs| && rs[i].Ok? && w in rs[i].value
      ensures w.row == i + 2
    {
      RowPlace(dev, i + 2, sorted, stat);
    }
    ChainRows(rs, row, col);
    ChainRows(rs, row, col + 3);
    if 2 <= row < 15 && VALUE_COLUMN <= col < VALUE_COLUMN + 3 {
      RowLayout(dev, row, col, sorted, stat);
    }
  }

  /** Every parameter write lies in a value or band column. */
  lemma ParameterColumns(dev: Device, sorted: bool, stat: string)
    requires ParameterWrites(dev, sorted, stat).Ok?
    ensures forall w :: w in ParameterWrites(dev, sorted, stat).value ==> VALUE_COLUMN <= w.col < VALUE_COLUMN + 6
  {
    var rs := ParameterSteps(dev, sorted, stat);
    forall i | 0 <= i < |rs| && rs[i].Ok?
      ensures forall w :: w in rs[i].value ==> VALUE_COLUMN <= w.col < VALUE_COLUMN + 6
    {
      RowPlace(dev, i + 2, sorted, stat);
    }
    ChainColumns(rs, VALUE_COLUMN, VALUE_COLUMN + 6);
  }

  /** Steps that each write only within columns `lo` to `hi` - 1 write only there. */
  lemma {:induction false} ChainColumns(rs: seq<Result<seq<Write>>>, lo: nat, hi: nat)
    requires Chain(rs).Ok?
    requires forall i :: 0 <= i < |rs| && rs[i].Ok? ==> forall w :: w in rs[i].value ==> lo <= w.col < hi
    ensures forall w :: w in Chain(rs).value ==> lo <= w.col < hi
  {
    if rs != [] {
      var init := rs[..|rs| - 1];
      assert forall i :: 0 <= i < |init| ==> init[i] == rs[i];
      ChainColumns(init, lo, hi);
    }
  }

  /** The metric names down column E, which nothing later overwrites. */
  lemma NameLabels(device: string, sorted: bool, stat: string, row: nat)
    requires 2 <= row < 15
    ensures CellAt(HeaderWrites(device, sorted, stat), row, 4) == Some(Str(ParameterDict[row]))
  {
    var names := NameWrites();
    NameCell(row);
    CellOwnedLast(TitleWrites(device), names, row, 4);
    CellOwned(TitleWrites(device) + names, DirectionWrites(sorted, stat), row, 4);
  }

  /** Column E of rows 2 to 14 holds the names alone. */
  lemma NameCell(row: nat)
    requires 2 <= row < 15
    ensures CellAt(NameWrites(), row, 4) == Some(Str(ParameterDict[row]))
  {
    var names := NameWrites();
    var k := row - 2;
    var upto, after := names[..k + 1], names[k + 1..];
    assert names == upto + after;
    assert upto[k] == Write(row, 4, Str(ParameterDict[row]));
    assert CellAt(upto, row, 4) == Some(Str(ParameterDict[row]));
    assert forall w :: w in after ==> w.row != row by {
      forall w | w in after
        ensures w.row != row
      {
        var j :| 0 <= j < |after| && after[j] == w;
        assert w == names[k + 1 + j];
      }
    }
    CellOwned(upto, after, row, 4);
  }

  /** The direction above each value column. */
  lemma DirectionLabels(device: string, sorted: bool, stat: string, col: nat)
    requires VALUE_COLUMN <= col < VALUE_COLUMN + 3
    ensures CellAt(HeaderWrites(device, sorted, stat), 1, col) == Some(Str(DIRECTIONS[col - VALUE_COLUMN]))
  {
    var values := CenterAcross(0, VALUE_COLUMN, Str("Values"));
    var dirs := DirectionRow(VALUE_COLUMN);
    var bands := if sorted then CenterAcross(0, 8, Str("Selected error metric: " + stat)) + DirectionRow(8) else [];
    assert DirectionWrites(sorted, stat) == values + dirs + bands;
    assert forall w: Write :: w in bands ==> w.col >= 8;
    CellOwned(values + dirs, bands, 1, col);
    DirectionRowCells(VALUE_COLUMN, col);
    CellOwnedLast(values, dirs, 1, col);
    TitlesLeftOfValues(device);
    CellOwnedLast(TitleWrites(device) + NameWrites(), DirectionWrites(sorted, stat), 1, col);
  }

  /** The column titles and the parameter names lie in columns A to E. */
  lemma TitlesLeftOfValues(device: string)
    ensures forall w :: w in TitleWrites(device) + NameWrites() ==> w.col <= 4
  {
    forall w | w in TitleWrites(device) + NameWrites()
      ensures w.col <= 4
    {
      if w in NameWrites() {
        var k :| 0 <= k < 13 && NameWrites()[k] == w;
      }
    }
  }

  /** Below row 1 the headers write only column E. */
  lemma HeaderBelowRowOne(device: string, sorted: bool, stat: string)
    ensures forall w :: w in HeaderWrites(device, sorted, stat) && w.row >= 2 ==> w.col == 4
  {
    var t, n, d := TitleWrites(device), NameWrites(), DirectionWrites(sorted, stat);
    forall w: Write | w in t + n + d && w.row >= 2
      ensures w.col == 4
    {
      if w in n {
        var k :| 0 <= k < |n| && n[k] == w;
      }
    }
  }

  /** A device sheet's cells: the names down column E and the directions
      above the value columns stay, and each cell from row 2 on shows what
      the parameters wrote there. */
  lemma SheetLabels(device: string, dev: Device, sorted: bool, stat: string, row: nat, col: nat)
    requires ParameterWrites(dev, sorted, stat).Ok?
    ensures var cells := HeaderWrites(device, sorted, stat) + ParameterWrites(dev, sorted, stat).value;
      (2 <= row < 15 ==> CellAt(cells, row, 4) == Some(Str(ParameterDict[row])))
      && (VALUE_COLUMN <= col < VALUE_COLUMN + 3 ==> CellAt(cells, 1, col) == Some(Str(DIRECTIONS[col - VALUE_COLUMN])))
      && (2 <= row && col != 4 ==> CellAt(cells, row, col) == CellAt(ParameterWrites(dev, sorted, stat).value, row, col))
  {
    var h, p := HeaderWrites(device, sorted, stat), ParameterWrites(dev, sorted, stat).value;
    ParameterColumns(dev, sorted, stat);
    ParameterLayout(dev, 1, col, sorted, stat);
    CellAtConcat(h, p, 1, col);
    CellAtConcat(h, p, row, 4);
    CellAtConcat(h, p, row, col);
    CellAtUntouched(p, row, 4);
    if 2 <= row < 15 {
      NameLabels(device, sorted, stat, row);
    }
    if VALUE_COLUMN <= col < VALUE_COLUMN + 3 {
      DirectionLabels(device, sorted, stat, col);
    }
    if 2 <= row && col != 4 {
      HeaderBelowRowOne(device, sorted, stat);
      CellAtUntouched(h, row, col);
    }
  }

  /** How a workbook names and fills its sheets: counters instead of folder
      names, one folder only, and the error metric when the data are sorted. */
  datatype Layout = Layout(long: bool, single: bool, sorted: bool, stat: string)

  /** A device's sheet: its name, the cells of `set_headers` and
      `write_parameters` in the order written, its data rows and its 'Used
      files' column. */
  datatype Sheet = Sheet(name: string, cells: seq<Write>, rows: seq<DataRow>, used: seq<DF.Used>)

  /** One device: the name, the offsets stored back into it, the headers,
      the rows, the parameters and the file column, failing on a missing
      sweep, area, parameter, entry or file list, in that order. */
  function DeviceSheet(folder: string, counter: nat, name: string, dev: Device, layout: Layout)
    : Result<(Device, Sheet)>
  {
    var sheetName := SheetName(folder, counter, name, layout.long, layout.single);
    var offsets :- OffsetsOf(dev.data);
    var rows :- DataRows(dev.data, dev.area);
    var parameters :- ParameterWrites(dev, layout.sorted, layout.stat);
    var used :- UsedColumn(dev.used);
    Ok((dev.(stamp := Some(Stamp(sheetName, offsets))),
        Sheet(sheetName, HeaderWrites(name, layout.sorted, layout.stat) + parameters, rows, used)))
  }

  /** What one device gives: itself stamped, and its sheet. */
  type DeviceStep = (string, Device) -> Result<(Device, Sheet)>

  /** The device step of the `counter`-th folder. */
  function SheetOf(folder: string, counter: nat, layout: Layout): DeviceStep
  {
    (name: string, dev: Device) => DeviceSheet(folder, counter, name, dev, layout)
  }

  /** The devices of one folder, in order: the stamped devices and their sheets. */
  function FolderSheets(devs: Dict<string, Device>, make: DeviceStep): Result<(Dict<string, Device>, seq<Sheet>)>
  {
    if devs == [] then Ok(([], []))
    else
      var prev :- FolderSheets(devs[..|devs| - 1], make);
      var last := devs[|devs| - 1];
      var made :- make(last.0, last.1);
      Ok((prev.0 + [(last.0, made.0)], prev.1 + [made.1]))
  }

  /** What one folder gives: its stamped devices and their sheets. */
  type FolderStep = (string, nat, Dict<string, Device>) -> Result<(Dict<string, Device>, seq<Sheet>)>

  /** The first `n` folders, counted from 1, each handled by `step`. */
  function AllSheets(data: Devices, n: nat, step: FolderStep): Result<(Devices, seq<Sheet>)>
    requires n <= |data|
  {
    if n == 0 then Ok(([], []))
    else
      var prev :- AllSheets(data, n - 1, step);
      var made :- step(data[n - 1].0, n, data[n - 1].1);
      Ok((prev.0 + [(data[n - 1].0, made.0)], prev.1 + made.1))
  }

  /** The folder step of `set_worksheets`, with the naming mode fixed for the workbook. */
  function Folders(layout: Layout): FolderStep
  {
    (folder: string, counter: nat, devs: Dict<string, Device>) => FolderSheets(devs, SheetOf(folder, counter, layout))
  }

  /** The layout `set_worksheets` chooses for `data`. */
  function LayoutOf(data: Devices, sorted: bool, stat: string): Layout
  {
    Layout(LongNameFound(data), |data| == 1, sorted, stat)
  }

  /** The whole of `set_worksheets` on `data`. */
  function Worksheets(data: Devices, sorted: bool, stat: string): Result<(Devices, seq<Sheet>)>
  {
    AllSheets(data, |data|, Folders(LayoutOf(data, sorted, stat)))
  }

  /** The sheets follow the devices, a failing device stops the fold with
      its error, and each device keeps its name and gains the stamp that
      names its sheet. */
  lemma {:induction false} FolderSheetsMeaning(devs: Dict<string, Device>, make: DeviceStep)
    ensures FolderSheets(devs, make).Ok? <==>
      forall j :: 0 <= j < |devs| ==> make(devs[j].0, devs[j].1).Ok?
    ensures FolderSheets(devs, make).Ok? ==>
      var r := FolderSheets(devs, make).value;
      |r.0| == |devs| && |r.1| == |devs| &&
      forall j :: 0 <= j < |devs| ==>
        r.0[j] == (devs[j].0, make(devs[j].0, devs[j].1).value.0) &&
        r.1[j] == make(devs[j].0, devs[j].1).value.1
    ensures FolderSheets(devs, make).Err? ==>
      exists j :: 0 <= j < |devs| && make(devs[j].0, devs[j].1).Err? &&
        FolderSheets(devs, make).error == make(devs[j].0, devs[j].1).error
  {
    if devs != [] {
      var n := |devs|;
      var init := devs[..n - 1];
      FolderSheetsMeaning(init, make);
      var prev := FolderSheets(init, make);
      var made := make(devs[n - 1].0, devs[n - 1].1);
      FolderSheetsStep(devs, make);
      if prev.Err? {
        var j :| 0 <= j < |init| && make(init[j].0, init[j].1).Err? &&
          prev.error == make(init[j].0, init[j].1).error;
        assert init[j] == devs[j];
      } else if made.Err? {
      } else {
        forall j | 0 <= j < n
          ensures make(devs[j].0, devs[j].1).Ok?
        {
          if j < n - 1 {
            assert init[j] == devs[j];
          }
        }
        var r := FolderSheets(devs, make).value;
        forall j | 0 <= j < n
          ensures r.0[j] == (devs[j].0, make(devs[j].0, devs[j].1).value.0)
          ensures r.1[j] == make(devs[j].0, devs[j].1).value.1
        {
          if j < n - 1 {
            assert init[j] == devs[j];
          }
        }
      }
    }
  }

  /** One device more: the fold goes on with its sheet or stops at its error. */
  lemma FolderSheetsStep(devs: Dict<string, Device>, make: DeviceStep)
    requires devs != []
    ensures var prev := FolderSheets(devs[..|devs| - 1], make);
      var last := devs[|devs| - 1];
      var made := make(last.0, last.1);
      FolderSheets(devs, make) ==
        if prev.Err? then Err(prev.error)
        else if made.Err? then Err(made.error)
        else Ok((prev.value.0 + [(last.0, made.value.0)], prev.value.1 + [made.value.1]))
  {
  }

  /** A device's sheet and stamp: the sheet is named by `SheetName`, holds
      the device's data rows and file column, and the device changes only by
      its stamp, which records that name and the sweeps' offsets. */
  lemma DeviceSheetMeaning(folder: string, counter: nat, name: string, dev: Device, layout: Layout)
    ensures DeviceSheet(folder, counter, name, dev, layout).Ok? <==>
      OffsetsOf(dev.data).Ok? && DataRows(dev.data, dev.area).Ok? &&
      ParameterWrites(dev, layout.sorted, layout.stat).Ok? && dev.used.Some? &&
      forall k :: 0 <= k < |Listed(dev.used.value)| ==> Listed(dev.used.value)[k].File?
    ensures DeviceSheet(folder, counter, name, dev, layout).Ok? ==>
      var r := DeviceSheet(folder, counter, name, dev, layout).value;
      var sheetName := SheetName(folder, counter, name, layout.long, layout.single);
      r.0 == dev.(stamp := Some(Stamp(sheetName, OffsetsOf(dev.data).value)))
      && r.1 == Sheet(sheetName,
                      HeaderWrites(name, layout.sorted, layout.stat) + ParameterWrites(dev, layout.sorted, layout.stat).value,
                      DataRows(dev.data, dev.area).value, UsedColumn(dev.used).value)
  {
  }

  /** One folder more: the fold goes on with its devices or stops at its error. */
  lemma AllSheetsStep(data: Devices, n: nat, step: FolderStep)
    requires 0 < n <= |data|
    ensures var prev := AllSheets(data, n - 1, step);
      var made := step(data[n - 1].0, n, data[n - 1].1);
      AllSheets(data, n, step) ==
        if prev.Err? then Err(prev.error)
        else if made.Err? then Err(made.error)
        else Ok((prev.value.0 + [(data[n - 1].0, made.value.0)], prev.value.1 + made.value.1))
  {
  }

  /** The folders' sheets, in folder order, each folder counted from 1:
      the fold succeeds exactly when every folder does. */
  lemma {:induction false} AllSheetsOk(data: Devices, n: nat, step: FolderStep)
    requires n <= |data|
    ensures AllSheets(data, n, step).Ok? <==>
      forall i :: 0 <= i < n ==> step(data[i].0, i + 1, data[i].1).Ok?
  {
    if n > 0 {
      AllSheetsOk(data, n - 1, step);
      AllSheetsStep(data, n, step);
    }
  }

  /** The stamped devices: folder by folder, each folder's stamped devices. */
  lemma {:induction false} AllSheetsDevices(data: Devices, n: nat, step: FolderStep)
    requires n <= |data| && AllSheets(data, n, step).Ok?
    ensures |AllSheets(data, n, step).value.0| == n
    ensures forall i :: 0 <= i < n ==>
      step(data[i].0, i + 1, data[i].1).Ok? &&
      AllSheets(data, n, step).value.0[i] == (data[i].0, step(data[i].0, i + 1, data[i].1).value.0)
  {
    if n > 0 {
      AllSheetsStep(data, n, step);
      AllSheetsDevices(data, n - 1, step);
      var prev := AllSheets(data, n - 1, step).value.0;
      var r := AllSheets(data, n, step).value.0;
      forall i | 0 <= i < n
        ensures step(data[i].0, i + 1, data[i].1).Ok?
        ensures r[i] == (data[i].0, step(data[i].0, i + 1, data[i].1).value.0)
      {
        if i < n - 1 {
          assert r[i] == prev[i];
        }
      }
    }
  }

  /** Once any folder and device together are too long, every sheet of a
      workbook with several folders is named after its folder's counter. */
  lemma LongNamesUseCounters(data: Devices, sorted: bool, stat: string, i: nat, j: nat)
    requires Worksheets(data, sorted, stat).Ok? && LongNameFound(data) && |data| != 1
    requires i < |data| && j < |data[i].1|
    ensures var stamped := Worksheets(data, sorted, stat).value.0;
      |stamped| == |data| && |stamped[i].1| == |data[i].1| && stamped[i].1[j].1.stamp.Some? &&
      stamped[i].1[j].1.stamp.value.sheetName == Truncated(NatToString(i + 1) + " " + data[i].1[j].0)
  {
    var layout := LayoutOf(data, sorted, stat);
    WorksheetsFolder(data, sorted, stat, i);
    FolderDeviceStamp(data[i].0, i + 1, data[i].1, layout, j);
  }

  /** The `i`-th folder of a written workbook holds the devices its folder
      step stamped. */
  lemma WorksheetsFolder(data: Devices, sorted: bool, stat: string, i: nat)
    requires Worksheets(data, sorted, stat).Ok? && i < |data|
    ensures var folder := FolderSheets(data[i].1, SheetOf(data[i].0, i + 1, LayoutOf(data, sorted, stat)));
      |Worksheets(data, sorted, stat).value.0| == |data| && folder.Ok? &&
      Worksheets(data, sorted, stat).value.0[i].1 == folder.value.0
  {
    var step := Folders(LayoutOf(data, sorted, stat));
    AllSheetsDevices(data, |data|, step);
    assert step(data[i].0, i + 1, data[i].1) == FolderSheets(data[i].1, SheetOf(data[i].0, i + 1, LayoutOf(data, sorted, stat)));
  }

  /** The `j`-th device of a folder whose sheets are written is stamped
      with its sheet name. */
  lemma FolderDeviceStamp(folder: string, counter: nat, devs: Dict<string, Device>, layout: Layout, j: nat)
    requires FolderSheets(devs, SheetOf(folder, counter, layout)).Ok? && j < |devs|
    ensures var r := FolderSheets(devs, SheetOf(folder, counter, layout)).value.0;
      |r| == |devs| && r[j].1.stamp.Some? &&
      r[j].1.stamp.value.sheetName == SheetName(folder, counter, devs[j].0, layout.long, layout.single)
  {
    var make := SheetOf(folder, counter, layout);
    FolderSheetsMeaning(devs, make);
    assert make(devs[j].0, devs[j].1) == DeviceSheet(folder, counter, devs[j].0, devs[j].1, layout);
    DeviceSheetStamp(folder, counter, devs[j].0, devs[j].1, layout);
  }

  /** A device's sheet that is written stamps the device with its sheet name. */
  lemma DeviceSheetStamp(folder: string, counter: nat, name: string, dev: Device, layout: Layout)
    requires DeviceSheet(folder, counter, name, dev, layout).Ok?
    ensures DeviceSheet(folder, counter, name, dev, layout).value.0.stamp.Some?
    ensures DeviceSheet(folder, counter, name, dev, layout).value.0.stamp.value.sheetName ==
      SheetName(folder, counter, name, layout.long, layout.single)
  {
    DeviceSheetMeaning(folder, counter, name, dev, layout);
  }

  /** With a single folder every sheet is named after its device. */
  lemma SingleFolderNames(data: Devices, sorted: bool, stat: string, j: nat)
    requires Worksheets(data, sorted, stat).Ok? && |data| == 1 && j < |data[0].1|
    ensures var stamped := Worksheets(data, sorted, stat).value.0;
      |stamped| == 1 && |stamped[0].1| == |data[0].1| && stamped[0].1[j].1.stamp.Some? &&
      stamped[0].1[j].1.stamp.value.sheetName == Truncated(data[0].1[j].0)
  {
    WorksheetsFolder(data, sorted, stat, 0);
    FolderDeviceStamp(data[0].0, 1, data[0].1, LayoutOf(data, sorted, stat), j);
  }

  lemma {:induction false} FolderSheetsStayFailed(devs: Dict<string, Device>, n: nat, make: DeviceStep)
    requires n <= |devs| && FolderSheets(devs[..n], make).Err?
    ensures FolderSheets(devs, make) == FolderSheets(devs[..n], make)
    decreases |devs| - n
  {
    if n < |devs| {
      PrefixSnoc(devs, n + 1);
      FolderSheetsStayFailed(devs, n + 1, make);
    } else {
      PrefixAll(devs);
    }
  }

  lemma {:induction false} AllSheetsStayFailed(data: Devices, m: nat, n: nat, step: FolderStep)
    requires m <= n <= |data| && AllSheets(data, m, step).Err?
    ensures AllSheets(data, n, step) == AllSheets(data, m, step)
    decreases n - m
  {
    if m < n {
      AllSheetsStayFailed(data, m, n - 1, step);
    }
  }

  /** Every device carries its sheet name and offsets. */
  predicate AllStamped(data: Devices)
  {
    forall i, j :: 0 <= i < |data| && 0 <= j < |data[i].1| ==> data[i].1[j].1.stamp.Some?
  }

  /** After a successful `set_worksheets` every device of every folder, and
      only those, carries its sheet name and offsets. */
  lemma WorksheetsStampAll(data: Devices, sorted: bool, stat: string)
    requires Worksheets(data, sorted, stat).Ok?
    ensures var stamped := Worksheets(data, sorted, stat).value.0;
      AllStamped(stamped) && |stamped| == |data| &&
      forall i :: 0 <= i < |data| ==> stamped[i].0 == data[i].0 && Keys(stamped[i].1) == Keys(data[i].1)
  {
    var layout := LayoutOf(data, sorted, stat);
    var stamped := Worksheets(data, sorted, stat).value.0;
    AllSheetsDevices(data, |data|, Folders(layout));
    forall i | 0 <= i < |data|
      ensures |stamped[i].1| == |data[i].1| && stamped[i].0 == data[i].0 && Keys(stamped[i].1) == Keys(data[i].1)
      ensures forall j :: 0 <= j < |stamped[i].1| ==> stamped[i].1[j].1.stamp.Some?
    {
      FolderStamped(data[i].0, i + 1, data[i].1, layout);
    }
  }

  /** One folder's devices, each stamped under its own name. */
  lemma FolderStamped(folder: string, counter: nat, devs: Dict<string, Device>, layout: Layout)
    requires FolderSheets(devs, SheetOf(folder, counter, layout)).Ok?
    ensures var r := FolderSheets(devs, SheetOf(folder, counter, layout)).value.0;
      |r| == |devs| && Keys(r) == Keys(devs) && forall j :: 0 <= j < |r| ==> r[j].1.stamp.Some?
  {
    var r := FolderSheets(devs, SheetOf(folder, counter, layout)).value.0;
    FolderSheetsMeaning(devs, SheetOf(folder, counter, layout));
    forall j | 0 <= j < |devs|
      ensures r[j].1.stamp.Some? && r[j].0 == devs[j].0
    {
      DeviceSheetMeaning(folder, counter, devs[j].0, devs[j].1, layout);
    }
  }
}
