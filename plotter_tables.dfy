/** The four summary tables of the JV plotter (JV_plotter_GUI/Plotter.py,
    `fill_tables`): the parameter names across row 0, then one row per
    device and sweep column, each cell a reference into the device's own
    sheet. A table is modelled as its grid of cells. */
module PlotterTables {
  import opened Wrappers
  import opened Dicts
  import opened Records
  import opened Plotter

  /** The sheet columns each table reads, table by table: 'Total' reads G
      then F, 'Forward' G, 'Reverse' F and 'Average' H (0-based 6, 5, 7). */
  const TABLES: seq<seq<nat>> := [[6, 5], [6], [5], [7]]

  /** Where the row index goes: the key of 'Device order' less one. */
  const DEVICE_ORDER_COLUMN: nat := 15

  /** `t[r][c]` is what row r, column c of a table holds. */
  type Grid = seq<seq<Content>>

  /** `write_table_headers`: the name of key i in column i - 1. */
  function TableHeader(): seq<Content>
  {
    seq(|ParameterDict|, c requires 0 <= c < |ParameterDict| => Str(ParameterDict[c]))
  }

  /** `write_table_rows`: the sheet's name, its column `col` from row 1 to
      row 10 (the direction and the nine metrics), its column F from row 11
      to row 14 (H-index, area, light, distance) and the row's own index.
      Rows are 0-based: the formula `{L}2` reads row 1. */
  function TableRow(rowIndex: nat, sheet: string, col: nat): seq<Content>
  {
    [Str(sheet)]
    + seq(10, k requires 0 <= k < 10 => Ref(sheet, col, k + 1))
    + seq(4, k requires 0 <= k < 4 => Ref(sheet, VALUE_COLUMN, k + 11))
    + [Number(Finite(rowIndex as real))]
  }

  /** One device's rows, one per sweep column, numbered from `start`. */
  function DeviceRows(start: nat, sheet: string, cols: seq<nat>): seq<seq<Content>>
  {
    seq(|cols|, s requires 0 <= s < |cols| => TableRow(start + s, sheet, cols[s]))
  }

  /** The rows below the header, devices in order, `row_index` counting
      from 1: each device's rows are numbered on from the rows before it. */
  function TableBody(names: seq<string>, cols: seq<nat>): seq<seq<Content>>
  {
    if names == [] then []
    else
      var prev := TableBody(names[..|names| - 1], cols);
      prev + DeviceRows(1 + |prev|, names[|names| - 1], cols)
  }

  /** One table: the header row and the device rows. */
  function Table(names: seq<string>, cols: seq<nat>): Grid
  {
    [TableHeader()] + TableBody(names, cols)
  }

  /** The sheet names of one folder's devices, in order; a device that was
      never given one is `device_data['sheet_name']`'s KeyError. */
  function FolderNames(devs: Dict<string, Device>): Result<seq<string>>
  {
    if devs == [] then Ok([])
    else
      var prev :- FolderNames(devs[..|devs| - 1]);
      var stamp := devs[|devs| - 1].1.stamp;
      if stamp.None? then Err(KeyError("sheet_name")) else Ok(prev + [stamp.value.sheetName])
  }

  /** The sheet names of every device, folder by folder. */
  function SheetNames(data: Devices): Result<seq<string>>
  {
    if data == [] then Ok([])
    else
      var prev :- SheetNames(data[..|data| - 1]);
      var last :- FolderNames(data[|data| - 1].1);
      Ok(prev + last)
  }

  /** `fill_tables`: the 'Total', 'Forward', 'Reverse' and 'Average' tables. */
  function Tables(data: Devices): Result<seq<Grid>>
  {
    var names :- SheetNames(data);
    Ok(seq(|TABLES|, t requires 0 <= t < |TABLES| => Table(names, TABLES[t])))
  }

  // ---------------------------------------------------------------------
  // What the tables hold.

  /** A folder's names are its devices' sheet names, found exactly when
      every device has one. */
  lemma {:induction false} FolderNamesMeaning(devs: Dict<string, Device>)
    ensures FolderNames(devs).Ok? <==> forall j :: 0 <= j < |devs| ==> devs[j].1.stamp.Some?
    ensures FolderNames(devs).Ok? ==>
      |FolderNames(devs).value| == |devs| &&
      forall j :: 0 <= j < |devs| ==> FolderNames(devs).value[j] == devs[j].1.stamp.value.sheetName
  {
    if devs != [] {
      var init := devs[..|devs| - 1];
      FolderNamesMeaning(init);
      assert forall j :: 0 <= j < |init| ==> init[j] == devs[j];
    }
  }

  /** The names are found exactly when every device of every folder has one. */
  lemma {:induction false} SheetNamesOk(data: Devices)
    ensures SheetNames(data).Ok? <==> AllStamped(data)
  {
    if data != [] {
      var init := data[..|data| - 1];
      SheetNamesOk(init);
      FolderNamesMeaning(data[|data| - 1].1);
      assert forall i :: 0 <= i < |init| ==> init[i] == data[i];
    }
  }

  /** After a successful `set_worksheets` the tables can always be filled. */
  lemma TablesAfterWorksheets(data: Devices, sorted: bool, stat: string)
    requires Worksheets(data, sorted, stat).Ok?
    ensures Tables(Worksheets(data, sorted, stat).value.0).Ok?
  {
    WorksheetsStampAll(data, sorted, stat);
    SheetNamesOk(Worksheets(data, sorted, stat).value.0);
  }

  /** Every device has one row per sweep column, below the header. */
  lemma {:induction false} TableBodyLength(names: seq<string>, cols: seq<nat>)
    ensures |TableBody(names, cols)| == |names| * |cols|
  {
    if names != [] {
      var n := |names| - 1;
      TableBodyLength(names[..n], cols);
      assert n * |cols| + |cols| == (n + 1) * |cols|;
    }
  }

  /** Device d's row for sweep column s sits at 1 + d·|cols| + s and reads
      d's sheet in that column. */
  lemma {:induction false} TableBodyAt(names: seq<string>, cols: seq<nat>, d: nat, s: nat)
    requires d < |names| && s < |cols|
    ensures d * |cols| + s < |TableBody(names, cols)|
    ensures TableBody(names, cols)[d * |cols| + s] == TableRow(1 + d * |cols| + s, names[d], cols[s])
  {
    var n := |names| - 1;
    var m := |cols|;
    TableBodyLength(names[..n], cols);
    TableBodyLength(names, cols);
    if d < n {
      TableBodyAt(names[..n], cols, d, s);
      MulStep(d, n, m);
    }
  }

  /** `d·m + s` with `s < m` stays below `n·m` when `d < n`. */
  lemma {:induction false} MulStep(d: nat, n: nat, m: nat)
    requires d < n
    ensures d * m + m <= n * m
    decreases n
  {
    if d + 1 < n {
      MulStep(d, n - 1, m);
    }
    assert (n - 1) * m + m == n * m;
  }

  /** The 'Device order' column of every row below the header holds that
      row's own index. */
  lemma {:induction false} BodyOrder(names: seq<string>, cols: seq<nat>, r: nat)
    requires r < |TableBody(names, cols)|
    ensures |TableBody(names, cols)[r]| == |ParameterDict|
    ensures TableBody(names, cols)[r][DEVICE_ORDER_COLUMN] == Number(Finite((r + 1) as real))
  {
    var n := |names| - 1;
    var prev := TableBody(names[..n], cols);
    TableBodyLength(names[..n], cols);
    if r < |prev| {
      BodyOrder(names[..n], cols, r);
    }
  }

  /** A table's header names the parameters in order, its 'Device order'
      column numbers the rows from 1, and the column it writes that number
      in is the one headed 'Device order'. */
  lemma TableOrder(names: seq<string>, cols: seq<nat>, r: nat)
    requires 1 <= r < |Table(names, cols)|
    ensures |Table(names, cols)[r]| == |ParameterDict|
    ensures Table(names, cols)[0][DEVICE_ORDER_COLUMN] == Str("Device order")
    ensures forall c :: 0 <= c < |ParameterDict| ==> Table(names, cols)[0][c] == Str(ParameterDict[c])
    ensures Table(names, cols)[r][DEVICE_ORDER_COLUMN] == Number(Finite(r as real))
  {
    BodyOrder(names, cols, r - 1);
  }

  /** Table column c, headed with key c + 1's name, reads row c of the
      device's sheet, and that row holds what the header names: the
      direction in row 1, the direction's metric in rows 2 to 10 and the
      device's own entry in rows 11 to 14, each labelled in column E with
      that same name. */
  lemma TableReadsSheet(device: string, dev: Device, sorted: bool, stat: string,
                        rowIndex: nat, sheet: string, col: nat, c: nat)
    requires ParameterWrites(dev, sorted, stat).Ok?
    requires VALUE_COLUMN <= col < VALUE_COLUMN + 3 && 1 <= c < 15
    ensures var cells := HeaderWrites(device, sorted, stat) + ParameterWrites(dev, sorted, stat).value;
      var ref := TableRow(rowIndex, sheet, col)[c];
      var name := ParameterDict[c];
      TableHeader()[c] == Str(name) && ref.Ref? && ref.sheet == sheet && ref.row == c
      && (c == 1 ==> ref.col == col && CellAt(cells, 1, col) == Some(Str(DIRECTIONS[col - VALUE_COLUMN])))
      && (2 <= c ==> CellAt(cells, c, 4) == Some(Str(name)))
      && (2 <= c < 11 ==>
            var t := SweepTable(dev, DIRECTIONS[col - VALUE_COLUMN]);
            ref.col == col && t.Ok? && Has(t.value, name) && CellAt(cells, c, col) == Some(Number(Get(t.value, name))))
      && (11 <= c ==>
            ref.col == VALUE_COLUMN && DeviceField(dev, name).Ok?
            && CellAt(cells, c, VALUE_COLUMN) == Some(Number(DeviceField(dev, name).value)))
  {
    var ref := TableRow(rowIndex, sheet, col)[c];
    SheetLabels(device, dev, sorted, stat, c, ref.col);
    ParameterLayout(dev, c, ref.col, sorted, stat);
  }

  // ---------------------------------------------------------------------
  // One step more, for the loops that fill the tables.

  /** One device more of a folder whose names were all found so far. */
  lemma FolderNamesNext(devs: Dict<string, Device>, j: nat, got: seq<string>)
    requires j < |devs| && FolderNames(devs[..j]) == Ok(got)
    ensures var stamp := devs[j].1.stamp;
      FolderNames(devs[..j + 1]) == if stamp.None? then Err(KeyError("sheet_name")) else Ok(got + [stamp.value.sheetName])
  {
    assert devs[..j + 1][..j] == devs[..j];
  }

  /** A folder's names, once one is missing, stay missing. */
  lemma {:induction false} FolderNamesStayFailed(devs: Dict<string, Device>, n: nat)
    requires n <= |devs| && FolderNames(devs[..n]).Err?
    ensures FolderNames(devs) == FolderNames(devs[..n])
    decreases |devs| - n
  {
    if n < |devs| {
      assert devs[..n + 1][..n] == devs[..n];
      FolderNamesStayFailed(devs, n + 1);
    } else {
      assert devs[..n] == devs;
    }
  }

  /** One folder more of a workbook whose names were all found so far. */
  lemma SheetNamesNext(data: Devices, i: nat, got: seq<string>)
    requires i < |data| && SheetNames(data[..i]) == Ok(got)
    ensures var more := FolderNames(data[i].1);
      SheetNames(data[..i + 1]) == if more.Err? then Err(more.error) else Ok(got + more.value)
  {
    assert data[..i + 1][..i] == data[..i];
  }

  /** The names, once one is missing, stay missing. */
  lemma {:induction false} SheetNamesStayFailed(data: Devices, n: nat)
    requires n <= |data| && SheetNames(data[..n]).Err?
    ensures SheetNames(data) == SheetNames(data[..n])
    decreases |data| - n
  {
    if n < |data| {
      assert data[..n + 1][..n] == data[..n];
      SheetNamesStayFailed(data, n + 1);
    } else {
      assert data[..n] == data;
    }
  }
}
