/** The aging sheet of the JV plotter (JV_plotter_GUI/Plotter.py, `aging`):
    per direction, per device and per folder one row holding the nine
    metrics, each also relative to the device's first value in that
    direction and, for merged data, between its lower and upper error
    bounds. The sheet is modelled as its header line and its rows. */
module PlotterAging {
  import opened Wrappers
  import opened Dicts
  import opened Records
  import opened Plotter

  /** The directions, in the order the sheet lists them. */
  const SWEEPS: seq<string> := ["Forward", "Reverse", "Average"]

  /** Keys that carry no per-row value: 12 to 16, then 1 and 2. */
  const EXCLUDED: nat := 7

  /** The distance between the value, relative, lower and upper blocks. */
  const SHIFT: nat := |ParameterDict| - EXCLUDED

  // ---------------------------------------------------------------------
  // Columns and headers.

  /** Metric j (key j + 3) is written in column key + 1. */
  function ValueColumn(j: nat): nat
  {
    j + 4
  }

  /** The metric names, each with `suffix`. */
  function Suffixed(suffix: string): seq<string>
  {
    seq(|MetricNames|, j requires 0 <= j < |MetricNames| => MetricNames[j] + suffix)
  }

  /** `headers_final`: keys 1 to 11, the relative names and, when sorted,
      the lower and upper names; entry i goes to column i + 2. */
  function AgingHeaders(sorted: bool, stat: string): seq<string>
  {
    ParameterDict[..11] + Suffixed("_relative")
    + (if sorted then Suffixed("_" + stat + "_lower") + Suffixed("_" + stat + "_upper") else [])
  }

  /** Every column a row writes sits below the header that names it: the
      device under 'Label', the direction under 'Scan direction', and each
      metric's value, relative value and bounds under their own names. */
  lemma HeadersAlign(sorted: bool, stat: string, j: nat)
    requires j < |MetricNames|
    ensures var h := AgingHeaders(sorted, stat);
      |h| == (if sorted then 38 else 20)
      && h[2 - 2] == "Label" && h[3 - 2] == "Scan direction"
      && h[ValueColumn(j) - 2] == MetricNames[j]
      && h[ValueColumn(j) + SHIFT - 2] == MetricNames[j] + "_relative"
      && (sorted ==>
            h[ValueColumn(j) + 2 * SHIFT - 2] == MetricNames[j] + "_" + stat + "_lower"
            && h[ValueColumn(j) + 3 * SHIFT - 2] == MetricNames[j] + "_" + stat + "_upper")
  {
    var h := AgingHeaders(sorted, stat);
    var lower, upper := Suffixed("_" + stat + "_lower"), Suffixed("_" + stat + "_upper");
    assert h[ValueColumn(j) - 2] == ParameterDict[j + 2];
    if sorted {
      assert h[ValueColumn(j) + 2 * SHIFT - 2] == lower[j];
      assert h[ValueColumn(j) + 3 * SHIFT - 2] == upper[j];
    }
  }

  // ---------------------------------------------------------------------
  // Arithmetic on possibly non-finite values.

  /** `value / first`; a zero or non-finite operand gives inf or nan. */
  function Quotient(v: Value, f: Value): (r: Value)
    ensures r.Finite? <==> v.Finite? && f.Finite? && f.x != 0.0
    ensures r.Finite? ==> r.x * f.x == v.x
  {
    if v.Finite? && f.Finite? && f.x != 0.0 then Finite(v.x / f.x) else NonFinite
  }

  /** `value - error`. */
  function Minus(v: Value, e: Value): (r: Value)
    ensures r.Finite? <==> v.Finite? && e.Finite?
    ensures r.Finite? ==> r.x + e.x == v.x
  {
    if v.Finite? && e.Finite? then Finite(v.x - e.x) else NonFinite
  }

  /** `value + error`. */
  function Plus(v: Value, e: Value): (r: Value)
    ensures r.Finite? <==> v.Finite? && e.Finite?
    ensures r.Finite? ==> r.x - e.x == v.x
  {
    if v.Finite? && e.Finite? then Finite(v.x + e.x) else NonFinite
  }

  /** Python's truth value of `.get(...)`: present and not zero (nan is true). */
  predicate Truthy(o: Option<Value>)
  {
    o.Some? && (o.value.NonFinite? || o.value.x != 0.0)
  }

  /** The first value of a device relative to itself is 1. */
  lemma QuotientSelf(v: Value)
    requires v.Finite? && v.x != 0.0
    ensures Quotient(v, v) == Finite(1.0)
  {
  }

  // ---------------------------------------------------------------------
  // The rows.

  /** One metric of one row: its value, relative value and error bounds. */
  datatype Cell = Cell(value: Value, relative: Value, band: Option<(Value, Value)>)

  /** One row: columns C and D, then the metric cells, none when the
      folder lacks the device. */
  datatype AgingRow = AgingRow(device: string, sweep: string, cells: seq<Cell>)

  /** The error bounds, written when sorted and the error is truthy. */
  function Band(t: Dict<string, Value>, name: string, sorted: bool, stat: string, v: Value): Option<(Value, Value)>
  {
    var e := Lookup(t, name + " " + stat);
    if sorted && Truthy(e) then Some((Minus(v, e.value), Plus(v, e.value))) else None
  }

  /** The bounds are there exactly when sorted and '{name} {stat}' is
      present and not zero, and then lie that error below and above. */
  lemma BandMeaning(t: Dict<string, Value>, name: string, sorted: bool, stat: string, v: Value)
    ensures var key := name + " " + stat;
      Band(t, name, sorted, stat, v).Some? <==> sorted && Has(t, key) && Get(t, key) != Finite(0.0)
    ensures var key := name + " " + stat;
      Band(t, name, sorted, stat, v).Some? ==>
        var b := Band(t, name, sorted, stat, v).value;
        (b.0.Finite? <==> v.Finite? && Get(t, key).Finite?)
        && (b.1.Finite? <==> v.Finite? && Get(t, key).Finite?)
        && (b.0.Finite? ==> v.x - b.0.x == Get(t, key).x && b.1.x - v.x == Get(t, key).x)
  {
  }

  /** The value a metric is divided by: the stored first value, else its own. */
  function FirstOf(first: Dict<string, Value>, t: Dict<string, Value>, name: string): Value
    requires Has(first, name) || Has(t, name)
  {
    if Has(first, name) then Get(first, name) else Get(t, name)
  }

  /** The first `n` metrics of a row from table `t`, storing each metric's
      first value when `first` has none yet. */
  function CellsOf(t: Dict<string, Value>, first: Dict<string, Value>, n: nat, sorted: bool, stat: string)
    : Result<(seq<Cell>, Dict<string, Value>)>
    requires n <= |MetricNames|
  {
    if n == 0 then Ok(([], first))
    else
      var prev :- CellsOf(t, first, n - 1, sorted, stat);
      var name := MetricNames[n - 1];
      var v :- Entry(t, name);
      var firstValue := if Has(prev.1, name) then Get(prev.1, name) else v;
      var f := if Has(prev.1, name) then prev.1 else Put(prev.1, name, v);
      Ok((prev.0 + [Cell(v, Quotient(v, firstValue), Band(t, name, sorted, stat, v))], f))
  }

  /** The nine metric names differ from one another. */
  lemma MetricNamesDistinct()
    ensures Distinct(MetricNames)
  {
  }

  /** The first `n` cells, each relative to the stored first value or
      else to itself. */
  predicate Computed(t: Dict<string, Value>, first: Dict<string, Value>, n: nat, sorted: bool, stat: string,
                     cells: seq<Cell>)
    requires n <= |MetricNames|
  {
    |cells| == n
    && forall j :: 0 <= j < n ==>
         Has(t, MetricNames[j])
         && var v := Get(t, MetricNames[j]);
         cells[j] == Cell(v, Quotient(v, FirstOf(first, t, MetricNames[j])), Band(t, MetricNames[j], sorted, stat, v))
  }

  /** The first values after `n` metrics: those stored before, and the
      first `n` metrics' own values where none was stored. */
  ghost predicate Stored(t: Dict<string, Value>, first: Dict<string, Value>, n: nat, f: Dict<string, Value>)
    requires n <= |MetricNames|
  {
    (forall name :: Has(f, name) <==> Has(first, name) || name in MetricNames[..n])
    && (forall name :: Has(f, name) ==> (Has(first, name) || Has(t, name)) && Get(f, name) == FirstOf(first, t, name))
  }

  /** Before metric n - 1 its first value is stored exactly when it was
      stored before the row. */
  lemma StoredBefore(t: Dict<string, Value>, first: Dict<string, Value>, n: nat, f: Dict<string, Value>)
    requires 0 < n <= |MetricNames| && Stored(t, first, n - 1, f)
    ensures Has(f, MetricNames[n - 1]) <==> Has(first, MetricNames[n - 1])
    ensures Has(f, MetricNames[n - 1]) ==> Get(f, MetricNames[n - 1]) == Get(first, MetricNames[n - 1])
  {
    MetricNamesDistinct();
    assert MetricNames[n - 1] !in MetricNames[..n - 1];
  }

  /** One metric more keeps the cells computed. */
  lemma CellsStep(t: Dict<string, Value>, first: Dict<string, Value>, n: nat, sorted: bool, stat: string)
    requires 0 < n <= |MetricNames| && CellsOf(t, first, n - 1, sorted, stat).Ok? && Has(t, MetricNames[n - 1])
    requires var prev := CellsOf(t, first, n - 1, sorted, stat).value;
      var name := MetricNames[n - 1];
      Computed(t, first, n - 1, sorted, stat, prev.0)
      && (Has(prev.1, name) <==> Has(first, name))
      && (Has(prev.1, name) ==> Get(prev.1, name) == Get(first, name))
    ensures CellsOf(t, first, n, sorted, stat).Ok?
    ensures var prev := CellsOf(t, first, n - 1, sorted, stat).value;
      var name := MetricNames[n - 1];
      var r := CellsOf(t, first, n, sorted, stat).value;
      Computed(t, first, n, sorted, stat, r.0)
      && r.1 == if Has(prev.1, name) then prev.1 else Put(prev.1, name, Get(t, name))
  {
  }

  /** One metric more keeps the first values stored. */
  lemma StoredStep(t: Dict<string, Value>, first: Dict<string, Value>, n: nat, f: Dict<string, Value>)
    requires 0 < n <= |MetricNames| && Has(t, MetricNames[n - 1]) && Stored(t, first, n - 1, f)
    ensures var name := MetricNames[n - 1];
      Stored(t, first, n, if Has(f, name) then f else Put(f, name, Get(t, name)))
  {
    var name := MetricNames[n - 1];
    StoredBefore(t, first, n, f);
    assert MetricNames[..n] == MetricNames[..n - 1] + [name];
    if !Has(f, name) {
      var f' := Put(f, name, Get(t, name));
      forall k | true
        ensures Has(f', k) <==> k == name || Has(f, k)
        ensures Has(f', k) ==> Get(f', k) == if k == name then Get(t, name) else Get(f, k)
      {
        PutLookup(f, name, Get(t, name), k);
      }
    }
  }

  /** A row's cells: found exactly when the table has every metric, each
      relative to the stored first value or else to itself, and the first
      values gain exactly the metrics not stored before. */
  lemma {:induction false} CellsMeaning(t: Dict<string, Value>, first: Dict<string, Value>, n: nat, sorted: bool, stat: string)
    requires n <= |MetricNames|
    ensures CellsOf(t, first, n, sorted, stat).Ok? <==> forall j :: 0 <= j < n ==> Has(t, MetricNames[j])
    ensures CellsOf(t, first, n, sorted, stat).Err? ==>
      exists j :: 0 <= j < n && !Has(t, MetricNames[j]) && CellsOf(t, first, n, sorted, stat).error == KeyError(MetricNames[j])
    ensures CellsOf(t, first, n, sorted, stat).Ok? ==>
      var r := CellsOf(t, first, n, sorted, stat).value;
      Computed(t, first, n, sorted, stat, r.0) && Stored(t, first, n, r.1)
  {
    if n > 0 {
      CellsMeaning(t, first, n - 1, sorted, stat);
      if CellsOf(t, first, n - 1, sorted, stat).Ok? && Has(t, MetricNames[n - 1]) {
        var prev := CellsOf(t, first, n - 1, sorted, stat).value;
        StoredBefore(t, first, n, prev.1);
        CellsStep(t, first, n, sorted, stat);
        StoredStep(t, first, n, prev.1);
      }
    } else {
      assert MetricNames[..0] == [];
    }
  }

  /** `self.data[folder_name]`. */
  function FolderDevices(data: Devices, folder: string): Result<Dict<string, Device>>
  {
    match Lookup(data, folder)
    case None => Err(KeyError(folder))
    case Some(devs) => Ok(devs)
  }

  /** One folder's row for `device` and `sweep`: no cells when the folder
      lacks the device, else its table's nine metrics. */
  function AgingRowOf(devs: Dict<string, Device>, device: string, sweep: string, sorted: bool, stat: string,
                 first: Dict<string, Value>): Result<(AgingRow, Dict<string, Value>)>
  {
    match Lookup(devs, device)
    case None => Ok((AgingRow(device, sweep, []), first))
    case Some(dev) =>
      var t :- SweepTable(dev, sweep);
      var made :- CellsOf(t, first, |MetricNames|, sorted, stat);
      Ok((AgingRow(device, sweep, made.0), made.1))
  }

  /** The rows of one device in one direction, one per folder of its list,
      with the first values that direction has stored so far. */
  function Block(data: Devices, folders: seq<string>, device: string, sweep: string, sorted: bool, stat: string)
    : Result<(seq<AgingRow>, Dict<string, Value>)>
  {
    if folders == [] then Ok(([], []))
    else
      var prev :- Block(data, folders[..|folders| - 1], device, sweep, sorted, stat);
      var devs :- FolderDevices(data, folders[|folders| - 1]);
      var made :- AgingRowOf(devs, device, sweep, sorted, stat, prev.1);
      Ok((prev.0 + [made.0], made.1))
  }

  /** The cells of the first row that has any. */
  function FirstCells(rows: seq<AgingRow>): Option<seq<Cell>>
  {
    if rows == [] then None
    else
      var prev := FirstCells(rows[..|rows| - 1]);
      if prev.Some? then prev
      else if rows[|rows| - 1].cells != [] then Some(rows[|rows| - 1].cells)
      else None
  }

  /** What a block's rows hold, and the first values it keeps. */
  predicate BlockHolds(data: Devices, folders: seq<string>, device: string, sweep: string,
                       rows: seq<AgingRow>, first: Dict<string, Value>)
  {
    |rows| == |folders|
    && (forall k :: 0 <= k < |rows| ==>
          rows[k].device == device && rows[k].sweep == sweep && FolderDevices(data, folders[k]).Ok?
          && (rows[k].cells == [] <==> !Has(FolderDevices(data, folders[k]).value, device))
          && (rows[k].cells != [] ==>
                (|rows[k].cells| == |MetricNames| && FirstCells(rows).Some? && |FirstCells(rows).value| == |MetricNames|
                 && forall j :: 0 <= j < |MetricNames| ==>
                      rows[k].cells[j].relative == Quotient(rows[k].cells[j].value, FirstCells(rows).value[j].value))))
    && (FirstCells(rows).None? ==> first == [])
    && (FirstCells(rows).Some? ==>
          |FirstCells(rows).value| == |MetricNames|
          && forall j :: 0 <= j < |MetricNames| ==>
               Has(first, MetricNames[j]) && Get(first, MetricNames[j]) == FirstCells(rows).value[j].value)
  }

  /** One folder more keeps what a block holds. */
  lemma BlockStep(data: Devices, folders: seq<string>, device: string, sweep: string, sorted: bool, stat: string,
                  rows: seq<AgingRow>, first: Dict<string, Value>, folder: string)
    requires BlockHolds(data, folders, device, sweep, rows, first)
    requires FolderDevices(data, folder).Ok?
    requires AgingRowOf(FolderDevices(data, folder).value, device, sweep, sorted, stat, first).Ok?
    ensures var made := AgingRowOf(FolderDevices(data, folder).value, device, sweep, sorted, stat, first).value;
      BlockHolds(data, folders + [folder], device, sweep, rows + [made.0], made.1)
  {
    var devs := FolderDevices(data, folder).value;
    var made := AgingRowOf(devs, device, sweep, sorted, stat, first).value;
    var rows' := rows + [made.0];
    assert rows'[..|rows'| - 1] == rows;
    if Has(devs, device) {
      var t := SweepTable(Get(devs, device), sweep).value;
      CellsMeaning(t, first, |MetricNames|, sorted, stat);
      assert MetricNames[..|MetricNames|] == MetricNames;
    }
    forall k | 0 <= k < |rows'|
      ensures rows'[k].cells != [] ==>
        (|rows'[k].cells| == |MetricNames| && FirstCells(rows').Some? && |FirstCells(rows').value| == |MetricNames|
         && forall j :: 0 <= j < |MetricNames| ==>
              rows'[k].cells[j].relative == Quotient(rows'[k].cells[j].value, FirstCells(rows').value[j].value))
    {
      if k < |rows| {
        assert rows'[k] == rows[k];
      }
    }
  }

  /** Every folder of the list gives one row, labelled with the device and
      the direction, with no cells exactly when the folder lacks the device;
      each metric is relative to the device's first value in this direction,
      the one of its first folder that has it. */
  lemma {:induction false} BlockMeaning(data: Devices, folders: seq<string>, device: string, sweep: string, sorted: bool, stat: string)
    requires Block(data, folders, device, sweep, sorted, stat).Ok?
    ensures var b := Block(data, folders, device, sweep, sorted, stat).value;
      BlockHolds(data, folders, device, sweep, b.0, b.1)
  {
    if folders != [] {
      var n := |folders| - 1;
      BlockMeaning(data, folders[..n], device, sweep, sorted, stat);
      var prev := Block(data, folders[..n], device, sweep, sorted, stat).value;
      BlockStep(data, folders[..n], device, sweep, sorted, stat, prev.0, prev.1, folders[n]);
      assert folders[..n] + [folders[n]] == folders;
    }
  }

  /** The first folder that has the device shows 1 for every metric whose
      value is finite and not zero. */
  lemma FirstRowIsOne(data: Devices, folders: seq<string>, device: string, sweep: string, sorted: bool, stat: string,
                      k: nat, j: nat)
    requires Block(data, folders, device, sweep, sorted, stat).Ok?
    requires var rows := Block(data, folders, device, sweep, sorted, stat).value.0;
      k < |rows| && j < |rows[k].cells| && forall i :: 0 <= i < k ==> rows[i].cells == []
    ensures var c := Block(data, folders, device, sweep, sorted, stat).value.0[k].cells[j];
      c.value.Finite? && c.value.x != 0.0 ==> c.relative == Finite(1.0)
  {
    var rows := Block(data, folders, device, sweep, sorted, stat).value.0;
    BlockMeaning(data, folders, device, sweep, sorted, stat);
    FirstCellsAt(rows, k);
  }

  /** The first row with cells is the one `FirstCells` names. */
  lemma {:induction false} FirstCellsAt(rows: seq<AgingRow>, k: nat)
    requires k < |rows| && rows[k].cells != [] && forall i :: 0 <= i < k ==> rows[i].cells == []
    ensures FirstCells(rows) == Some(rows[k].cells)
  {
    var n := |rows| - 1;
    if k < n {
      FirstCellsAt(rows[..n], k);
    } else {
      FirstCellsNone(rows[..n]);
    }
  }

  lemma {:induction false} FirstCellsNone(rows: seq<AgingRow>)
    requires forall i :: 0 <= i < |rows| ==> rows[i].cells == []
    ensures FirstCells(rows) == None
  {
    if rows != [] {
      FirstCellsNone(rows[..|rows| - 1]);
    }
  }

  // ---------------------------------------------------------------------
  // Which folders each device is looked up in.

  /** One folder appended to the list of each of `unique[..m]`. */
  function AddFolder(acc: Dict<string, seq<string>>, folder: string, unique: seq<string>, m: nat): Dict<string, seq<string>>
    requires m <= |unique|
  {
    if m == 0 then acc
    else
      var prev := AddFolder(acc, folder, unique, m - 1);
      var d := unique[m - 1];
      Put(prev, d, if Has(prev, d) then Get(prev, d) + [folder] else [folder])
  }

  /** `unique_devices_folders`: for every folder, every device's list gains it. */
  function UniqueFolders(folders: seq<string>, unique: seq<string>): Dict<string, seq<string>>
  {
    if folders == [] then []
    else AddFolder(UniqueFolders(folders[..|folders| - 1], unique), folders[|folders| - 1], unique, |unique|)
  }

  /** The first folder opens a list for each device, in order. */
  lemma {:induction false} AddFirst(folder: string, unique: seq<string>, m: nat)
    requires m <= |unique| && Distinct(unique)
    ensures var r := AddFolder([], folder, unique, m);
      |r| == m && forall i :: 0 <= i < m ==> r[i] == (unique[i], [folder])
  {
    if m > 0 {
      AddFirst(folder, unique, m - 1);
      var prev := AddFolder([], folder, unique, m - 1);
      var d := unique[m - 1];
      ShapeValid(prev, unique[..m - 1]);
      assert d !in unique[..m - 1];
      PutNew(prev, d, [folder]);
    }
  }

  /** A dictionary whose keys are, in order, distinct names. */
  lemma ShapeValid(d: Dict<string, seq<string>>, names: seq<string>)
    requires Distinct(names) && |d| == |names| && forall i :: 0 <= i < |d| ==> d[i].0 == names[i]
    ensures Keys(d) == names && Valid(d)
  {
  }

  /** A later folder extends every device's list by itself. */
  lemma {:induction false} AddNext(acc: Dict<string, seq<string>>, folder: string, unique: seq<string>, m: nat, folders: seq<string>)
    requires m <= |unique| && Distinct(unique)
    requires |acc| == |unique| && forall i :: 0 <= i < |acc| ==> acc[i] == (unique[i], folders)
    ensures var r := AddFolder(acc, folder, unique, m);
      |r| == |unique| && forall i :: 0 <= i < |r| ==> r[i] == (unique[i], if i < m then folders + [folder] else folders)
  {
    if m > 0 {
      AddNext(acc, folder, unique, m - 1, folders);
      var prev := AddFolder(acc, folder, unique, m - 1);
      var d := unique[m - 1];
      ShapeValid(prev, unique);
      LookupAt(prev, m - 1);
      PutReplaces(prev, d, folders + [folder]);
    }
  }

  /** With distinct devices, each device's list is every folder in order;
      with no folder there are no devices either. */
  lemma {:induction false} UniqueFoldersMeaning(folders: seq<string>, unique: seq<string>)
    requires Distinct(unique)
    ensures folders == [] ==> UniqueFolders(folders, unique) == []
    ensures folders != [] ==>
      |UniqueFolders(folders, unique)| == |unique|
      && forall i :: 0 <= i < |unique| ==> UniqueFolders(folders, unique)[i] == (unique[i], folders)
  {
    var n := |folders|;
    if n == 1 {
      AddFirst(folders[0], unique, |unique|);
      assert folders[..0] == [];
      assert [folders[0]] == folders;
    } else if n > 1 {
      UniqueFoldersMeaning(folders[..n - 1], unique);
      AddNext(UniqueFolders(folders[..n - 1], unique), folders[n - 1], unique, |unique|, folders[..n - 1]);
      assert folders[..n - 1] + [folders[n - 1]] == folders;
    }
  }

  // ---------------------------------------------------------------------
  // The sheet.

  /** A block's rows. */
  function BlockRows(data: Devices, folders: seq<string>, device: string, sweep: string, sorted: bool, stat: string)
    : Result<seq<AgingRow>>
  {
    var b :- Block(data, folders, device, sweep, sorted, stat);
    Ok(b.0)
  }

  /** One direction: every device's block, devices in `unique_devices_folders` order. */
  function SweepRows(data: Devices, groups: Dict<string, seq<string>>, sweep: string, sorted: bool, stat: string)
    : Result<seq<AgingRow>>
  {
    Chain(seq(|groups|, d requires 0 <= d < |groups| => BlockRows(data, groups[d].1, groups[d].0, sweep, sorted, stat)))
  }

  /** All rows from row 1 down: Forward, then Reverse, then Average. */
  function AgingRows(data: Devices, unique: seq<string>, sorted: bool, stat: string): Result<seq<AgingRow>>
  {
    var groups := UniqueFolders(Keys(data), unique);
    Chain(seq(|SWEEPS|, s requires 0 <= s < |SWEEPS| => SweepRows(data, groups, SWEEPS[s], sorted, stat)))
  }

  /** `aging`: nothing outside aging mode, else the headers and the rows. */
  function AgingSheet(data: Devices, unique: seq<string>, agingMode: bool, sorted: bool, stat: string)
    : Result<Option<(seq<string>, seq<AgingRow>)>>
  {
    if !agingMode then Ok(None)
    else
      var rows :- AgingRows(data, unique, sorted, stat);
      Ok(Some((AgingHeaders(sorted, stat), rows)))
  }

  /** Steps that each give `size` items give `|rs|·size` together. */
  lemma {:induction false} ChainUniform<T>(rs: seq<Result<seq<T>>>, size: nat)
    requires Chain(rs).Ok?
    requires forall i :: 0 <= i < |rs| && rs[i].Ok? ==> |rs[i].value| == size
    ensures |Chain(rs).value| == |rs| * size
  {
    if rs != [] {
      var n := |rs| - 1;
      var init := rs[..n];
      assert forall i :: 0 <= i < n ==> init[i] == rs[i];
      ChainUniform(init, size);
      assert n * size + size == (n + 1) * size;
    }
  }

  /** Each direction gives one row per device and folder, whether or not
      the folder has the device: |SWEEPS| · |devices| · |folders| rows. */
  lemma AgingRowCount(data: Devices, unique: seq<string>, sorted: bool, stat: string)
    requires Valid(data) && Distinct(unique) && AgingRows(data, unique, sorted, stat).Ok?
    ensures |AgingRows(data, unique, sorted, stat).value| == |SWEEPS| * (|unique| * |data|)
  {
    var groups := UniqueFolders(Keys(data), unique);
    UniqueFoldersMeaning(Keys(data), unique);
    var ss := seq(|SWEEPS|, s requires 0 <= s < |SWEEPS| => SweepRows(data, groups, SWEEPS[s], sorted, stat));
    forall s | 0 <= s < |ss| && ss[s].Ok?
      ensures |ss[s].value| == |unique| * |data|
    {
      var bs := seq(|groups|, d requires 0 <= d < |groups| => BlockRows(data, groups[d].1, groups[d].0, SWEEPS[s], sorted, stat));
      assert |groups| == if data == [] then 0 else |unique|;
      forall d | 0 <= d < |bs| && bs[d].Ok?
        ensures |bs[d].value| == |data|
      {
        BlockMeaning(data, groups[d].1, groups[d].0, SWEEPS[s], sorted, stat);
      }
      ChainUniform(bs, |data|);
    }
    ChainUniform(ss, |unique| * |data|);
  }

  // ---------------------------------------------------------------------
  // One step more, for the loops of `aging`.

  /** A row's cells, once a metric is missing, stay failed. */
  lemma {:induction false} CellsStayFailed(t: Dict<string, Value>, first: Dict<string, Value>, m: nat, n: nat,
                                           sorted: bool, stat: string)
    requires m <= n <= |MetricNames| && CellsOf(t, first, m, sorted, stat).Err?
    ensures CellsOf(t, first, n, sorted, stat) == CellsOf(t, first, m, sorted, stat)
    decreases n - m
  {
    if m < n {
      CellsStayFailed(t, first, m, n - 1, sorted, stat);
    }
  }

  /** One folder more of a block that has gone well so far. */
  lemma BlockNext(data: Devices, folders: seq<string>, k: nat, device: string, sweep: string, sorted: bool, stat: string,
                  rows: seq<AgingRow>, first: Dict<string, Value>)
    requires k < |folders| && Block(data, folders[..k], device, sweep, sorted, stat) == Ok((rows, first))
    ensures var devs := FolderDevices(data, folders[k]);
      Block(data, folders[..k + 1], device, sweep, sorted, stat) ==
        if devs.Err? then Err(devs.error)
        else
          var made := AgingRowOf(devs.value, device, sweep, sorted, stat, first);
          if made.Err? then Err(made.error) else Ok((rows + [made.value.0], made.value.1))
  {
    assert folders[..k + 1][..k] == folders[..k];
  }

  /** A block, once a folder fails, stays failed. */
  lemma {:induction false} BlockStayFailed(data: Devices, folders: seq<string>, n: nat, device: string, sweep: string,
                                           sorted: bool, stat: string)
    requires n <= |folders| && Block(data, folders[..n], device, sweep, sorted, stat).Err?
    ensures Block(data, folders, device, sweep, sorted, stat) == Block(data, folders[..n], device, sweep, sorted, stat)
    decreases |folders| - n
  {
    if n < |folders| {
      assert folders[..n + 1][..n] == folders[..n];
      BlockStayFailed(data, folders, n + 1, device, sweep, sorted, stat);
    } else {
      assert folders[..n] == folders;
    }
  }

  /** One folder more of `unique_devices_folders`. */
  lemma UniqueFoldersNext(folders: seq<string>, i: nat, unique: seq<string>)
    requires i < |folders|
    ensures UniqueFolders(folders[..i + 1], unique) == AddFolder(UniqueFolders(folders[..i], unique), folders[i], unique, |unique|)
  {
    assert folders[..i + 1][..i] == folders[..i];
  }
}
