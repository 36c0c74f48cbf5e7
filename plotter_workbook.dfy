/** The workbook writer as an object (JV_plotter_GUI/Plotter.py,
    `DevicePlotter`): it holds the matched devices, stamps each with its
    sheet name and offsets in place, and collects the device sheets, the
    four summary tables and the aging sheet, each loop proved against the
    function that specifies it. */
module PlotterWorkbook {
  import opened Wrappers
  import opened Dicts
  import opened Frames
  import opened Records
  import opened Plotter
  import opened PlotterTables
  import opened PlotterAging

  /** Everything the writer produces: the stamped devices, the device
      sheets, the tables and, in aging mode, the aging sheet. */
  function Workbook(data: Devices, unique: seq<string>, stat: string, sorted: bool, agingMode: bool)
    : Result<(Devices, seq<Sheet>, seq<Grid>, Option<(seq<string>, seq<AgingRow>)>)>
  {
    var w :- Worksheets(data, sorted, stat);
    var tables :- Tables(w.0);
    var aging :- AgingSheet(w.0, unique, agingMode, sorted, stat);
    Ok((w.0, w.1, tables, aging))
  }

  /** The tables never fail once the sheets are written: the workbook is
      written exactly when its sheets and its aging rows are. */
  lemma WorkbookOk(data: Devices, unique: seq<string>, stat: string, sorted: bool, agingMode: bool)
    ensures Workbook(data, unique, stat, sorted, agingMode).Ok? <==>
      Worksheets(data, sorted, stat).Ok?
      && AgingSheet(Worksheets(data, sorted, stat).value.0, unique, agingMode, sorted, stat).Ok?
  {
    if Worksheets(data, sorted, stat).Ok? {
      TablesAfterWorksheets(data, sorted, stat);
    }
  }

  /** Writing entry `n` of a half-updated sequence. */
  lemma Overwrite<T>(done: seq<T>, rest: seq<T>, n: nat, x: T)
    requires |done| == n < |rest|
    ensures (done + rest[n..])[n := x] == done + [x] + rest[n + 1..]
  {
  }

  lemma RowsOfConcat(a: seq<Sample>, b: seq<Sample>, area: real)
    ensures RowsOf(a + b, area) == RowsOf(a, area) + RowsOf(b, area)
  {
  }

  lemma RowStepAt(dev: Device, row: nat, c: nat, sorted: bool, stat: string)
    requires 2 <= row < 15 && c < 3
    ensures RowSteps(dev, row, sorted, stat)[c] == CellWrites(dev, row, VALUE_COLUMN + c, sorted, stat)
  {
  }

  /** One step more of a chain that has gone well so far. */
  lemma ChainNext<T>(rs: seq<Result<seq<T>>>, n: nat, done: seq<T>, made: Result<seq<T>>)
    requires n < |rs| && Chain(rs[..n]) == Ok(done) && made == rs[n]
    ensures Chain(rs[..n + 1]) == if made.Ok? then Ok(done + made.value) else Err(made.error)
  {
    ChainSnoc(rs, n);
  }

  /** One device more of a folder that has gone well so far. */
  lemma FolderNext(devs: Dict<string, Device>, j: nat, make: DeviceStep, done: Dict<string, Device>, made: Result<(Device, Sheet)>,
                   doneSheets: seq<Sheet>)
    requires j < |devs| && FolderSheets(devs[..j], make) == Ok((done, doneSheets)) && made == make(devs[j].0, devs[j].1)
    ensures FolderSheets(devs[..j + 1], make) ==
      if made.Ok? then Ok((done + [(devs[j].0, made.value.0)], doneSheets + [made.value.1])) else Err(made.error)
  {
    FolderSheetsStep(devs[..j + 1], make);
    assert devs[..j + 1][..j] == devs[..j];
  }

  /** One folder more of a workbook that has gone well so far. */
  lemma AllNext(data: Devices, i: nat, step: FolderStep, done: Devices, doneSheets: seq<Sheet>,
                made: Result<(Dict<string, Device>, seq<Sheet>)>)
    requires i < |data| && AllSheets(data, i, step) == Ok((done, doneSheets)) && made == step(data[i].0, i + 1, data[i].1)
    ensures AllSheets(data, i + 1, step) ==
      if made.Ok? then Ok((done + [(data[i].0, made.value.0)], doneSheets + made.value.1)) else Err(made.error)
  {
    AllSheetsStep(data, i + 1, step);
  }

  /** Opening an empty list and appending to it is putting the one-item list. */
  lemma OpenList(g: Dict<string, seq<string>>, device: string, folder: string)
    ensures var empty := Put(g, device, []);
      Has(empty, device) && Put(empty, device, Get(empty, device) + [folder]) == Put(g, device, [folder])
  {
    PutLookup(g, device, [], device);
    assert [] + [folder] == [folder];
    PutPut(g, device, [], [folder]);
  }

  class DevicePlotter {
    var data: Devices
    const uniqueDevices: seq<string>
    const stat: string
    const sorted: bool
    const agingMode: bool
    var sheets: seq<Sheet>
    var tables: seq<Grid>
    var aging: Option<(seq<string>, seq<AgingRow>)>

    /** Stores the matched devices and the settings read from the parent. */
    constructor (matched: Devices, unique: seq<string>, stat: string, sorted: bool, agingMode: bool)
      ensures data == matched && uniqueDevices == unique && this.stat == stat
      ensures this.sorted == sorted && this.agingMode == agingMode
      ensures sheets == [] && tables == [] && aging == None
    {
      data := matched;
      uniqueDevices := unique;
      this.stat := stat;
      this.sorted := sorted;
      this.agingMode := agingMode;
      sheets := [];
      tables := [];
      aging := None;
    }

    /** The constructor's whole run: the device sheets, then the tables,
        then the aging sheet; the first error stops it. */
    static method Create(matched: Devices, unique: seq<string>, stat: string, sorted: bool, agingMode: bool)
      returns (plotter: DevicePlotter, r: Result<()>)
      ensures fresh(plotter) && plotter.uniqueDevices == unique && plotter.stat == stat
      ensures plotter.sorted == sorted && plotter.agingMode == agingMode
      ensures var w := Workbook(matched, unique, stat, sorted, agingMode);
        if w.Ok? then r.Ok? && plotter.data == w.value.0 && plotter.sheets == w.value.1
          && plotter.tables == w.value.2 && plotter.aging == w.value.3
        else r == Err(w.error)
    {
      plotter := new DevicePlotter(matched, unique, stat, sorted, agingMode);
      r := plotter.SetWorksheets();
      if r.Err? {
        return;
      }
      TablesAfterWorksheets(matched, sorted, stat);
      r := plotter.FillTables();
      if r.Err? {
        return;
      }
      r := plotter.Aging();
    }

    /** The rows below a sheet's header: every sample of every sweep, in
        order; the area is read per sample. */
    method WriteSweeps(frames: Dict<string, Frame>, area: Option<real>) returns (r: Result<seq<DataRow>>)
      ensures r == DataRows(frames, area)
    {
      var rows: seq<DataRow> := [];
      for s := 0 to |frames|
        invariant area.None? ==> AllSamples(frames[..s]) == [] && rows == []
        invariant area.Some? ==> rows == RowsOf(AllSamples(frames[..s]), area.value)
      {
        AllSamplesSnoc(frames, s + 1);
        var more := WriteSweep(frames[s].1, area, rows);
        if more.Err? {
          AllSamplesGrow(frames, s + 1);
          return more;
        }
        if area.Some? {
          RowsOfConcat(AllSamples(frames[..s]), frames[s].1, area.value);
        }
        rows := more.value;
      }
      PrefixAll(frames);
      r := Ok(rows);
    }

    /** One sweep's rows after `rows`, the area read again for each sample. */
    method WriteSweep(sweep: Frame, area: Option<real>, rows: seq<DataRow>) returns (r: Result<seq<DataRow>>)
      ensures sweep == [] ==> r == Ok(rows)
      ensures sweep != [] && area.None? ==> r == Err(KeyError(AREA))
      ensures area.Some? ==> r == Ok(rows + RowsOf(sweep, area.value))
    {
      var out := rows;
      for k := 0 to |sweep|
        invariant area.None? ==> k == 0 && out == rows
        invariant area.Some? ==> out == rows + RowsOf(sweep[..k], area.value)
      {
        if area.None? {
          return Err(KeyError(AREA));
        }
        RowsOfConcat(sweep[..k], [sweep[k]], area.value);
        assert sweep[..k + 1] == sweep[..k] + [sweep[k]];
        out := out + [RowOf(sweep[k], area.value)];
      }
      assert sweep[..|sweep|] == sweep;
      r := Ok(out);
    }

    /** `write_parameters`: rows 2 to 14; the first failing lookup stops it. */
    method WriteParameters(dev: Device) returns (r: Result<seq<Write>>)
      ensures r == ParameterWrites(dev, sorted, stat)
    {
      var steps := ParameterSteps(dev, sorted, stat);
      var ws: seq<Write> := [];
      for i := 0 to 13
        invariant Chain(steps[..i]) == Ok(ws)
      {
        var made := WriteRow(dev, i + 2);
        ChainNext(steps, i, ws, made);
        if made.Err? {
          ChainStaysFailed(steps, i + 1);
          return Err(made.error);
        }
        ws := ws + made.value;
      }
      PrefixAll(steps);
      r := Ok(ws);
    }

    /** One row of `write_parameters`: the Reverse, Forward and Average columns. */
    method WriteRow(dev: Device, row: nat) returns (r: Result<seq<Write>>)
      requires 2 <= row < 15
      ensures r == RowWrites(dev, row, sorted, stat)
    {
      var cells := RowSteps(dev, row, sorted, stat);
      var ws: seq<Write> := [];
      for c := 0 to 3
        invariant Chain(cells[..c]) == Ok(ws)
      {
        var made := CellWrites(dev, row, VALUE_COLUMN + c, sorted, stat);
        RowStepAt(dev, row, c, sorted, stat);
        ChainNext(cells, c, ws, made);
        if made.Err? {
          ChainStaysFailed(cells, c + 1);
          return Err(made.error);
        }
        ws := ws + made.value;
      }
      PrefixAll(cells);
      r := Ok(ws);
    }

    /** One device of `set_worksheets`: its name and offsets, its sheet's
        headers, rows, parameters and file column. */
    method WriteDevice(folder: string, counter: nat, name: string, dev: Device, layout: Layout)
      returns (r: Result<(Device, Sheet)>)
      requires layout.sorted == sorted && layout.stat == stat
      ensures r == DeviceSheet(folder, counter, name, dev, layout)
    {
      var sheetName := SheetName(folder, counter, name, layout.long, layout.single);
      var offsets :- OffsetsOf(dev.data);
      var rows :- WriteSweeps(dev.data, dev.area);
      var parameters :- WriteParameters(dev);
      var used :- UsedColumn(dev.used);
      r := Ok((dev.(stamp := Some(Stamp(sheetName, offsets))),
               Sheet(sheetName, HeaderWrites(name, sorted, stat) + parameters, rows, used)));
    }

    /** Device `j` of folder `i`: its sheet is written and, on success, the
        device is replaced in place by its stamped copy. */
    method StampDevice(i: nat, j: nat, layout: Layout) returns (one: Result<(Device, Sheet)>)
      requires i < |data| && j < |data[i].1| && layout.sorted == sorted && layout.stat == stat
      modifies this`data
      ensures one == SheetOf(old(data)[i].0, i + 1, layout)(old(data)[i].1[j].0, old(data)[i].1[j].1)
      ensures one.Ok? ==> data == old(data)[i := (old(data)[i].0, old(data)[i].1[j := (old(data)[i].1[j].0, one.value.0)])]
      ensures one.Err? ==> data == old(data)
    {
      var folder, device, dev := data[i].0, data[i].1[j].0, data[i].1[j].1;
      one := WriteDevice(folder, i + 1, device, dev, layout);
      if one.Ok? {
        data := data[i := (folder, data[i].1[j := (device, one.value.0)])];
      }
    }

    /** The devices of folder `i`, each stamped in place; the folder's
        sheets are returned in order. */
    method WriteFolder(i: nat, layout: Layout) returns (r: Result<seq<Sheet>>)
      requires i < |data| && layout.sorted == sorted && layout.stat == stat
      modifies this`data
      ensures var w := Plotter.Folders(layout)(old(data)[i].0, i + 1, old(data)[i].1);
        if w.Ok? then r == Ok(w.value.1) && data == old(data)[i := (old(data)[i].0, w.value.0)]
        else r == Err(w.error)
    {
      var folder, devs := data[i].0, data[i].1;
      var make := SheetOf(folder, i + 1, layout);
      ghost var before := data;
      ghost var done: Dict<string, Device> := [];
      var made: seq<Sheet> := [];
      assert done + devs[0..] == devs;
      assert devs[..0] == [];
      for j := 0 to |devs|
        invariant |done| == j && FolderSheets(devs[..j], make) == Ok((done, made))
        invariant data == before[i := (folder, done + devs[j..])]
      {
        assert data[i].1[j] == devs[j];
        var one := StampDevice(i, j, layout);
        FolderNext(devs, j, make, done, one, made);
        if one.Err? {
          FolderSheetsStayFailed(devs, j + 1, make);
          return Err(one.error);
        }
        Overwrite(done, devs, j, (devs[j].0, one.value.0));
        done := done + [(devs[j].0, one.value.0)];
        made := made + [one.value.1];
      }
      PrefixAll(devs);
      assert done + devs[|devs|..] == done;
      r := Ok(made);
    }

    /** Every folder in order with the layout fixed, each stamped in place;
        the sheets are returned in order and the first error stops it. */
    method WriteFolders(layout: Layout) returns (r: Result<seq<Sheet>>)
      requires layout.sorted == sorted && layout.stat == stat
      modifies this`data
      ensures var w := AllSheets(old(data), |old(data)|, Plotter.Folders(layout));
        if w.Ok? then r == Ok(w.value.1) && data == w.value.0
        else r == Err(w.error)
    {
      ghost var original := data;
      ghost var done: Devices := [];
      var made: seq<Sheet> := [];
      assert data == done + original[0..];
      var folders := |data|;
      for i := 0 to folders
        invariant |data| == |original| == folders && |done| == i
        invariant data == done + original[i..]
        invariant AllSheets(original, i, Plotter.Folders(layout)) == Ok((done, made))
      {
        assert data[i] == original[i];
        ghost var step := Plotter.Folders(layout)(original[i].0, i + 1, original[i].1);
        var more := WriteFolder(i, layout);
        AllNext(original, i, Plotter.Folders(layout), done, made, step);
        if more.Err? {
          AllSheetsStayFailed(original, i + 1, |original|, Plotter.Folders(layout));
          return Err(more.error);
        }
        Overwrite(done, original, i, data[i]);
        done := done + [data[i]];
        made := made + more.value;
      }
      assert done + original[|original|..] == done;
      r := Ok(made);
    }

    /** `set_worksheets`: the layout is fixed from all names first, then
        every folder is written in order and its sheets added to the
        workbook; the first error stops it. */
    method SetWorksheets() returns (r: Result<()>)
      modifies this`data, this`sheets
      ensures var w := Worksheets(old(data), sorted, stat);
        if w.Ok? then r.Ok? && data == w.value.0 && sheets == old(sheets) + w.value.1
        else r == Err(w.error)
    {
      var layout := LayoutOf(data, sorted, stat);
      var made :- WriteFolders(layout);
      sheets := sheets + made;
      r := Ok(());
    }

    /** `fill_tables`: the four tables, each read from every device's sheet
        in order. */
    method FillTables() returns (r: Result<()>)
      modifies this`tables
      ensures var t := Tables(data);
        if t.Ok? then r.Ok? && tables == t.value else r == Err(t.error) && tables == old(tables)
    {
      var grids: seq<Grid> := [];
      for t := 0 to |TABLES|
        invariant |grids| == t && (0 < t ==> SheetNames(data).Ok?) && tables == old(tables)
        invariant forall k :: 0 <= k < t ==> grids[k] == Table(SheetNames(data).value, TABLES[k])
      {
        var grid := FillTable(TABLES[t]);
        if grid.Err? {
          return Err(grid.error);
        }
        grids := grids + [grid.value];
      }
      tables := grids;
      r := Ok(());
    }

    /** One table: the header, then a row per device and sweep column,
        `row_index` counting from 1. */
    method FillTable(cols: seq<nat>) returns (r: Result<Grid>)
      ensures var names := SheetNames(data);
        if names.Ok? then r == Ok(Table(names.value, cols)) else r == Err(names.error)
    {
      var body: seq<seq<Content>> := [];
      var rowIndex := 1;
      ghost var got: seq<string> := [];
      assert data[..0] == [];
      for i := 0 to |data|
        invariant SheetNames(data[..i]) == Ok(got)
        invariant body == TableBody(got, cols) && rowIndex == 1 + |body|
      {
        SheetNamesNext(data, i, got);
        var more;
        ghost var names;
        more, names, rowIndex := FolderRows(got, data[i].1, cols, body, rowIndex);
        if more.Err? {
          SheetNamesStayFailed(data, i + 1);
          return Err(more.error);
        }
        body := more.value;
        got := got + names;
      }
      assert data[..|data|] == data;
      r := Ok([TableHeader()] + body);
    }

    /** The rows of one folder's devices, below `body`. */
    method FolderRows(ghost before: seq<string>, devs: Dict<string, Device>, cols: seq<nat>,
                      body: seq<seq<Content>>, rowIndex: nat)
      returns (r: Result<seq<seq<Content>>>, ghost names: seq<string>, next: nat)
      requires body == TableBody(before, cols) && rowIndex == 1 + |body|
      ensures FolderNames(devs).Ok? ==>
        names == FolderNames(devs).value && r == Ok(TableBody(before + names, cols))
        && next == 1 + |r.value|
      ensures FolderNames(devs).Err? ==> r == Err(FolderNames(devs).error)
    {
      var out := body;
      next := rowIndex;
      names := [];
      assert devs[..0] == [] && before + names == before;
      for j := 0 to |devs|
        invariant FolderNames(devs[..j]) == Ok(names)
        invariant out == TableBody(before + names, cols) && next == 1 + |out|
      {
        FolderNamesNext(devs, j, names);
        var stamp := devs[j].1.stamp;
        if stamp.None? {
          FolderNamesStayFailed(devs, j + 1);
          return Err(KeyError("sheet_name")), names, next;
        }
        var rows := TableRows(next, stamp.value.sheetName, cols);
        ghost var full := before + (names + [stamp.value.sheetName]);
        assert full[..|full| - 1] == before + names;
        out := out + rows;
        next := next + |cols|;
        names := names + [stamp.value.sheetName];
      }
      assert devs[..|devs|] == devs;
      r := Ok(out);
    }

    /** One device's rows, one per sweep column, each `write_table_rows`. */
    method TableRows(rowIndex: nat, sheet: string, cols: seq<nat>) returns (rows: seq<seq<Content>>)
      ensures rows == DeviceRows(rowIndex, sheet, cols)
    {
      rows := [];
      var index := rowIndex;
      for s := 0 to |cols|
        invariant index == rowIndex + s && |rows| == s
        invariant forall k :: 0 <= k < s ==> rows[k] == TableRow(rowIndex + k, sheet, cols[k])
      {
        rows := rows + [TableRow(index, sheet, cols[s])];
        index := index + 1;
      }
    }

    /** `aging`: nothing outside aging mode; else the headers and, for each
        direction, each device's rows over its folders, the first failing
        lookup stopping it. */
    method Aging() returns (r: Result<()>)
      modifies this`aging
      ensures !agingMode ==> r.Ok? && aging == old(aging)
      ensures agingMode ==>
        var a := AgingRows(data, uniqueDevices, sorted, stat);
        if a.Ok? then r.Ok? && aging == Some((AgingHeaders(sorted, stat), a.value))
        else r == Err(a.error) && aging == old(aging)
    {
      if !agingMode {
        return Ok(());
      }
      var headers := AgingHeaders(sorted, stat);
      var groups := UniqueDeviceFolders();
      ghost var d := data;
      ghost var steps := seq(|SWEEPS|, s requires 0 <= s < |SWEEPS| => SweepRows(d, groups, SWEEPS[s], sorted, stat));
      var rows: seq<AgingRow> := [];
      for s := 0 to |SWEEPS|
        invariant Chain(steps[..s]) == Ok(rows) && aging == old(aging)
      {
        var made := SweepBlocks(groups, SWEEPS[s]);
        ChainNext(steps, s, rows, made);
        if made.Err? {
          ChainStaysFailed(steps, s + 1);
          return Err(made.error);
        }
        rows := rows + made.value;
      }
      PrefixAll(steps);
      aging := Some((headers, rows));
      r := Ok(());
    }

    /** `unique_devices_folders`: every folder, in order, is appended to the
        list of every unique device, a list being opened empty first. */
    method UniqueDeviceFolders() returns (groups: Dict<string, seq<string>>)
      ensures groups == UniqueFolders(Keys(data), uniqueDevices)
    {
      var folders := Keys(data);
      groups := [];
      assert folders[..0] == [];
      for i := 0 to |folders|
        invariant groups == UniqueFolders(folders[..i], uniqueDevices)
      {
        UniqueFoldersNext(folders, i, uniqueDevices);
        ghost var before := groups;
        for m := 0 to |uniqueDevices|
          invariant groups == AddFolder(before, folders[i], uniqueDevices, m)
        {
          var device := uniqueDevices[m];
          if !Has(groups, device) {
            OpenList(groups, device, folders[i]);
            groups := Put(groups, device, []);
          }
          groups := Put(groups, device, Get(groups, device) + [folders[i]]);
        }
      }
      PrefixAll(folders);
    }

    /** One direction: each device's block in turn. */
    method SweepBlocks(groups: Dict<string, seq<string>>, sweep: string) returns (r: Result<seq<AgingRow>>)
      ensures r == SweepRows(data, groups, sweep, sorted, stat)
    {
      ghost var all := data;
      ghost var steps := seq(|groups|, d requires 0 <= d < |groups| => BlockRows(all, groups[d].1, groups[d].0, sweep, sorted, stat));
      var rows: seq<AgingRow> := [];
      for d := 0 to |groups|
        invariant Chain(steps[..d]) == Ok(rows)
      {
        var made := BlockFor(groups[d].1, groups[d].0, sweep);
        ChainNext(steps, d, rows, made);
        if made.Err? {
          ChainStaysFailed(steps, d + 1);
          return Err(made.error);
        }
        rows := rows + made.value;
      }
      PrefixAll(steps);
      r := Ok(rows);
    }

    /** One device in one direction: a row per folder of its list, the
        first values starting empty. */
    method BlockFor(folders: seq<string>, device: string, sweep: string) returns (r: Result<seq<AgingRow>>)
      ensures r == BlockRows(data, folders, device, sweep, sorted, stat)
    {
      var rows: seq<AgingRow> := [];
      var first: Dict<string, Value> := [];
      assert folders[..0] == [];
      for k := 0 to |folders|
        invariant Block(data, folders[..k], device, sweep, sorted, stat) == Ok((rows, first))
      {
        BlockNext(data, folders, k, device, sweep, sorted, stat, rows, first);
        var devs := FolderDevices(data, folders[k]);
        if devs.Err? {
          BlockStayFailed(data, folders, k + 1, device, sweep, sorted, stat);
          return Err(devs.error);
        }
        var made := AgingRowFor(devs.value, device, sweep, first);
        if made.Err? {
          BlockStayFailed(data, folders, k + 1, device, sweep, sorted, stat);
          return Err(made.error);
        }
        rows := rows + [made.value.0];
        first := made.value.1;
      }
      PrefixAll(folders);
      r := Ok(rows);
    }

    /** One folder's row: no cells when the folder lacks the device, else
        the direction's metrics. */
    method AgingRowFor(devs: Dict<string, Device>, device: string, sweep: string, first: Dict<string, Value>)
      returns (r: Result<(AgingRow, Dict<string, Value>)>)
      ensures r == AgingRowOf(devs, device, sweep, sorted, stat, first)
    {
      var dev := Lookup(devs, device);
      if dev.None? {
        return Ok((AgingRow(device, sweep, []), first));
      }
      var t :- SweepTable(dev.value, sweep);
      var made :- AgingCells(t, first);
      r := Ok((AgingRow(device, sweep, made.0), made.1));
    }

    /** The metric loop: each value, its ratio to the stored first value
        (stored now when there is none) and, when sorted, its band. */
    method AgingCells(t: Dict<string, Value>, first: Dict<string, Value>) returns (r: Result<(seq<Cell>, Dict<string, Value>)>)
      ensures r == CellsOf(t, first, |MetricNames|, sorted, stat)
    {
      var cells: seq<Cell> := [];
      var f := first;
      for j := 0 to |MetricNames|
        invariant CellsOf(t, first, j, sorted, stat) == Ok((cells, f))
      {
        var name := MetricNames[j];
        var value := Entry(t, name);
        if value.Err? {
          CellsStayFailed(t, first, j + 1, |MetricNames|, sorted, stat);
          return Err(value.error);
        }
        ghost var g := f;
        if !Has(f, name) {
          f := Put(f, name, value.value);
          PutLookup(g, name, value.value, name);
        }
        cells := cells + [Cell(value.value, Quotient(value.value, Get(f, name)), Band(t, name, sorted, stat, value.value))];
      }
      r := Ok((cells, f));
    }
  }
}
