/** The file tree and the active-area entries of JV_plotter_GUI/Treeviews_frame.py:
    which detected devices the selected files pick, and how the typed or
    detected area, the light intensity and the distance are written into
    their records. The tree widget is given as its rows (`Item`), the Entry
    widgets as (device label, typed text) rows in widget order. */
module Treeviews {
  import opened Wrappers
  import opened Dicts
  import opened Strs
  import opened Records
  import DF = DeviceFilter

  /** A row of the file tree: its text and, for a child, its parent's text. */
  datatype Item = Item(text: string, parent: Option<string>)

  /** A value of the detected-areas dictionary: an area in mm², or one
      folder's nested device-to-area dictionary. */
  datatype Detected = Area(x: real) | PerFolder(areas: Dict<string, real>)

  /** What the area entries read besides their own text: the detected areas
      (`None` once detection found nothing) and the light and distance
      entries of the settings panel. */
  datatype Settings = Settings(detected: Option<Dict<string, Detected>>, light: string, distance: string)

  // ---------------------------------------------------------------------
  // `devices_by_folder`: the selected files per folder

  /** `folder_file_dict` and `topmost_folder` while the rows are read. */
  datatype Selecting = Selecting(folders: Dict<string, seq<string>>, topmost: Option<string>)

  /** The files selected so far in `folder`. */
  function FilesIn(folders: Dict<string, seq<string>>, folder: string): seq<string>
  {
    match Lookup(folders, folder)
    case None => []
    case Some(fs) => fs
  }

  /** One selected row. A top-level row is a folder; in aging mode it becomes
      the topmost folder instead. A child row is a file of its parent, unless
      the parent is the topmost folder. */
  function SelectStep(s: Selecting, item: Item, aging: bool): Selecting
  {
    match item.parent
    case None =>
      if aging then Selecting(s.folders, Some(item.text))
      else if Has(s.folders, item.text) then s
      else Selecting(Put(s.folders, item.text, []), s.topmost)
    case Some(p) =>
      if s.topmost == Some(p) then s
      else Selecting(Put(s.folders, p, FilesIn(s.folders, p) + [item.text]), s.topmost)
  }

  function SelectFold(items: seq<Item>, aging: bool): Selecting
  {
    if items == [] then Selecting([], None)
    else SelectStep(SelectFold(items[..|items| - 1], aging), items[|items| - 1], aging)
  }

  /** `folder_file_dict` after all selected rows. */
  function Selection(items: seq<Item>, aging: bool): Dict<string, seq<string>>
  {
    SelectFold(items, aging).folders
  }

  /** Some row is the folder itself or a child of it. */
  predicate Mentioned(items: seq<Item>, folder: string)
  {
    items != [] &&
      (Mentioned(items[..|items| - 1], folder) || items[|items| - 1].parent == Some(folder)
         || items[|items| - 1] == Item(folder, None))
  }

  /** The texts of the child rows of `folder`, in row order. */
  function ChildrenOf(items: seq<Item>, folder: string): seq<string>
  {
    if items == [] then []
    else
      ChildrenOf(items[..|items| - 1], folder)
        + (if items[|items| - 1].parent == Some(folder) then [items[|items| - 1].text] else [])
  }

  lemma {:induction false} NoChildren(items: seq<Item>, folder: string)
    requires !Mentioned(items, folder)
    ensures ChildrenOf(items, folder) == []
  {
    if items != [] {
      NoChildren(items[..|items| - 1], folder);
    }
  }

  lemma {:induction false} NoTopmost(items: seq<Item>)
    ensures SelectFold(items, false).topmost == None
  {
    if items != [] {
      NoTopmost(items[..|items| - 1]);
    }
  }

  /** Outside aging mode a folder is selected iff some row is that folder or
      one of its children, and its files are its child rows in order. */
  lemma {:induction false} SelectionGroups(items: seq<Item>, folder: string)
    ensures Lookup(Selection(items, false), folder) ==
      if Mentioned(items, folder) then Some(ChildrenOf(items, folder)) else None
  {
    if items != [] {
      var init := items[..|items| - 1];
      var x := items[|items| - 1];
      SelectionGroups(init, folder);
      NoTopmost(init);
      if x.parent.None? {
        SelectionTop(init, x, folder);
      } else {
        SelectionChild(init, x, folder);
      }
    }
  }

  lemma SelectionTop(init: seq<Item>, x: Item, folder: string)
    requires x.parent.None?
    requires Lookup(Selection(init, false), folder) ==
      if Mentioned(init, folder) then Some(ChildrenOf(init, folder)) else None
    ensures var items := init + [x];
      Lookup(Selection(items, false), folder) ==
        if Mentioned(items, folder) then Some(ChildrenOf(items, folder)) else None
  {
    var items := init + [x];
    assert items[..|items| - 1] == init;
    var c := ChildrenOf(init, folder);
    assert c + [] == c;
    var f := Selection(init, false);
    if !Has(f, x.text) {
      PutLookup(f, x.text, [], folder);
      if x.text == folder {
        NoChildren(init, folder);
      }
    }
  }

  lemma SelectionChild(init: seq<Item>, x: Item, folder: string)
    requires x.parent.Some? && SelectFold(init, false).topmost == None
    requires Lookup(Selection(init, false), folder) ==
      if Mentioned(init, folder) then Some(ChildrenOf(init, folder)) else None
    ensures var items := init + [x];
      Lookup(Selection(items, false), folder) ==
        if Mentioned(items, folder) then Some(ChildrenOf(items, folder)) else None
  {
    var items := init + [x];
    assert items[..|items| - 1] == init;
    var f := Selection(init, false);
    var p := x.parent.value;
    PutLookup(f, p, FilesIn(f, p) + [x.text], folder);
    if p == folder {
      if !Mentioned(init, p) {
        NoChildren(init, p);
      }
    } else {
      var c := ChildrenOf(init, folder);
      assert c + [] == c;
    }
  }

  /** The rows other than children of `root`, in order. */
  function NotUnder(items: seq<Item>, root: string): seq<Item>
  {
    if items == [] then []
    else
      NotUnder(items[..|items| - 1], root)
        + (if items[|items| - 1].parent == Some(root) then [] else [items[|items| - 1]])
  }

  /** In aging mode, with one top-level row first and child rows after it,
      the root is no folder of its own and its direct children are no files:
      the selection is the ordinary one of the remaining rows. */
  lemma {:induction false} AgingSkipsRoot(items: seq<Item>)
    requires |items| > 0 && items[0].parent == None
    requires forall k :: 0 < k < |items| ==> items[k].parent.Some?
    ensures Selection(items, true) == Selection(NotUnder(items[1..], items[0].text), false)
  {
    AgingState(items);
  }

  lemma {:induction false} AgingState(items: seq<Item>)
    requires |items| > 0 && items[0].parent == None
    requires forall k :: 0 < k < |items| ==> items[k].parent.Some?
    ensures SelectFold(items, true) ==
      Selecting(SelectFold(NotUnder(items[1..], items[0].text), false).folders, Some(items[0].text))
  {
    var root := items[0].text;
    if |items| == 1 {
      assert items[..0] == [];
      assert items[1..] == [];
    } else {
      var init := items[..|items| - 1];
      var x := items[|items| - 1];
      assert init[0] == items[0];
      assert forall k :: 0 < k < |init| ==> init[k].parent.Some? by {
        forall k | 0 < k < |init| ensures init[k].parent.Some? {
          assert init[k] == items[k];
        }
      }
      AgingState(init);
      AgingStep(SelectFold(init, true), NotUnder(init[1..], root), root, x);
      NotUnderSnoc(items, root);
    }
  }

  /** One child row in aging mode against the same row outside it. */
  lemma AgingStep(s: Selecting, rest: seq<Item>, root: string, x: Item)
    requires x.parent.Some?
    requires s == Selecting(SelectFold(rest, false).folders, Some(root))
    ensures SelectStep(s, x, true) ==
      Selecting(SelectFold(rest + (if x.parent == Some(root) then [] else [x]), false).folders, Some(root))
  {
    NoTopmost(rest);
    if x.parent == Some(root) {
      assert rest + [] == rest;
    } else {
      var more := rest + [x];
      assert more[..|more| - 1] == rest;
    }
  }

  lemma NotUnderSnoc(items: seq<Item>, root: string)
    requires |items| > 1
    ensures NotUnder(items[1..], root) ==
      NotUnder(items[..|items| - 1][1..], root)
        + (if items[|items| - 1].parent == Some(root) then [] else [items[|items| - 1]])
  {
    var t := items[1..];
    assert t[..|t| - 1] == items[..|items| - 1][1..];
  }

  // ---------------------------------------------------------------------
  // `devices_by_folder`: the devices the selected files pick

  /** `'Used files' in selected_files`, or for a pair, some member is; a
      member that is itself a pair never equals a file name. */
  predicate Picked(used: DF.Used, files: seq<string>)
  {
    match used
    case File(n) => n in files
    case Both(a, b) => (a.File? && a.name in files) || (b.File? && b.name in files)
  }

  /** The records of the devices of one folder that the selected files pick. */
  function Chosen(devs: DF.Folder, files: seq<string>): Dict<string, Record>
  {
    if devs == [] then []
    else
      var prev := Chosen(devs[..|devs| - 1], files);
      var (name, dev) := devs[|devs| - 1];
      if Picked(dev.used, files) then prev + [(name, FromDevice(dev))] else prev
  }

  /** A device of the folder is chosen iff its files were selected, and it
      keeps the detector's sweeps and 'Used files'. */
  lemma {:induction false} ChosenLookup(devs: DF.Folder, files: seq<string>, name: string)
    requires Valid(devs)
    ensures Lookup(Chosen(devs, files), name) ==
      match Lookup(devs, name)
      case None => None
      case Some(dev) => if Picked(dev.used, files) then Some(FromDevice(dev)) else None
  {
    if devs != [] {
      var init := devs[..|devs| - 1];
      var (n, dev) := devs[|devs| - 1];
      assert Valid(init) by {
        assert forall i :: 0 <= i < |init| ==> Keys(init)[i] == Keys(devs)[i];
      }
      ChosenLookup(init, files, name);
      PrefixAll(devs);
      LookupPrefix(devs, |devs|, name);
      var prev := Chosen(init, files);
      if Picked(dev.used, files) {
        LookupSnoc(prev, n, FromDevice(dev), name);
        if name == n {
          LastKeyFresh(devs, |devs|);
        }
      }
    }
  }

  /** `self.devices[folder]`, which raises KeyError for an unknown folder. */
  function FolderOf(devices: Dict<string, DF.Folder>, folder: string): Result<DF.Folder>
  {
    match Lookup(devices, folder)
    case None => Err(KeyError(folder))
    case Some(devs) => Ok(devs)
  }

  /** `matched_devices`: folder by folder, the chosen devices of the folders
      where any was chosen. */
  function Match(sel: Dict<string, seq<string>>, devices: Dict<string, DF.Folder>): Result<Folders>
  {
    if sel == [] then Ok([])
    else
      var prev :- Match(sel[..|sel| - 1], devices);
      var devs :- FolderOf(devices, sel[|sel| - 1].0);
      var chosen := Chosen(devs, sel[|sel| - 1].1);
      if chosen == [] then Ok(prev) else Ok(Put(prev, sel[|sel| - 1].0, chosen))
  }

  /** Matching fails exactly when a selected folder has no detected devices,
      and then with KeyError. */
  lemma {:induction false} MatchFails(sel: Dict<string, seq<string>>, devices: Dict<string, DF.Folder>)
    ensures Match(sel, devices).Ok? <==> forall k :: 0 <= k < |sel| ==> Has(devices, sel[k].0)
    ensures Match(sel, devices).Err? ==> Match(sel, devices).error.KeyError?
  {
    if sel != [] {
      var init := sel[..|sel| - 1];
      MatchFails(init, devices);
      assert forall k :: 0 <= k < |init| ==> init[k] == sel[k];
    }
  }

  /** A matched folder holds the chosen devices of its selected files; a
      folder is matched iff it was selected and some device was chosen. */
  lemma MatchLookup(sel: Dict<string, seq<string>>, devices: Dict<string, DF.Folder>,
                    m: Folders, folder: string)
    requires Valid(sel) && Match(sel, devices) == Ok(m)
    ensures Has(sel, folder) ==> Has(devices, folder)
    ensures Lookup(m, folder) ==
      match Lookup(sel, folder)
      case None => None
      case Some(files) =>
        var chosen := Chosen(Get(devices, folder), files);
        if chosen == [] then None else Some(chosen)
  {
    MatchFails(sel, devices);
    if Has(sel, folder) {
      var k :| 0 <= k < |sel| && Keys(sel)[k] == folder;
      assert Has(devices, sel[k].0);
    }
    MatchValue(sel, devices, folder);
  }

  /** The value part of `MatchLookup`, by induction on the selection. */
  lemma {:induction false} MatchValue(sel: Dict<string, seq<string>>, devices: Dict<string, DF.Folder>, folder: string)
    requires Valid(sel) && Match(sel, devices).Ok? && (Has(sel, folder) ==> Has(devices, folder))
    ensures Lookup(Match(sel, devices).value, folder) ==
      match Lookup(sel, folder)
      case None => None
      case Some(files) =>
        var chosen := Chosen(Get(devices, folder), files);
        if chosen == [] then None else Some(chosen)
  {
    if sel != [] {
      var n := |sel|;
      var init := sel[..n - 1];
      var (f, files) := sel[n - 1];
      assert Valid(init) by {
        assert forall i :: 0 <= i < |init| ==> Keys(init)[i] == Keys(sel)[i];
      }
      var prev := Match(init, devices).value;
      PrefixAll(sel);
      LookupPrefix(sel, n, folder);
      MatchValue(init, devices, folder);
      var chosen := Chosen(Get(devices, f), files);
      assert Match(sel, devices).value == if chosen == [] then prev else Put(prev, f, chosen);
      if chosen != [] {
        PutLookup(prev, f, chosen, folder);
      }
      if folder == f {
        LastKeyFresh(sel, n);
      }
    }
  }

  lemma {:induction false} MatchStaysFailed(sel: Dict<string, seq<string>>, devices: Dict<string, DF.Folder>, n: nat)
    requires n <= |sel| && Match(sel[..n], devices).Err?
    ensures Match(sel, devices) == Match(sel[..n], devices)
  {
    if n < |sel| {
      var init := sel[..|sel| - 1];
      assert init[..n] == sel[..n];
      MatchStaysFailed(init, devices, n);
    } else {
      PrefixAll(sel);
    }
  }

  // ---------------------------------------------------------------------
  // `update_matched_devices_from_entries`

  /** `float(text)`, which raises ValueError on text that is no number. */
  function Parsed(parse: string -> Option<real>, text: string): Result<real>
  {
    match parse(text)
    case None => Err(ValueError("could not convert string to float: '" + text + "'"))
    case Some(x) => Ok(x)
  }

  /** The typed area, or `None` when the entry is empty, no number or not
      positive: the cases that warn and return `None`. */
  function TypedArea(text: string, parse: string -> Option<real>): (r: Option<real>)
    ensures r.Some? <==> text != "" && parse(text).Some? && parse(text).value > 0.0
    ensures r.Some? ==> r.value == parse(text).value
  {
    if text == "" then None
    else
      match parse(text)
      case None => None
      case Some(x) => if x <= 0.0 then None else Some(x)
  }

  /** The area in mm² a device gets: the folder's nested detected value,
      else the flat detected value, else the typed one. A flat value that is
      itself a dictionary cannot be divided (TypeError). */
  function AreaValue(detected: Option<Dict<string, Detected>>, folder: string, device: string, typed: real): Result<real>
  {
    match detected
    case None => Ok(typed)
    case Some(dd) =>
      var entry: Option<Detected> := Lookup(dd, folder);
      match entry
      case Some(PerFolder(inner)) =>
        if Has(inner, device) then Ok(Get(inner, device)) else FlatArea(dd, device, typed)
      case _ => FlatArea(dd, device, typed)
  }

  function FlatArea(dd: Dict<string, Detected>, device: string, typed: real): Result<real>
  {
    var entry: Option<Detected> := Lookup(dd, device);
    match entry
    case None => Ok(typed)
    case Some(Area(x)) => Ok(x)
    case Some(PerFolder(_)) => Err(TypeError("unsupported operand type(s) for /: 'dict' and 'int'"))
  }

  /** The three settings written into a record: the area converted from mm²
      to cm², the light intensity from W/m² to W/cm², the distance as typed. */
  function Settled(r: Record, area: real, light: real, distance: real): Record
  {
    r.(area := Some(area / 100.0), light := Some(light / 10000.0), distance := Some(distance))
  }

  /** The entry is valid and every value it needs can be computed. */
  predicate Applies(folder: string, device: string, text: string, s: Settings, parse: string -> Option<real>)
  {
    TypedArea(text, parse).Some?
      && AreaValue(s.detected, folder, device, TypedArea(text, parse).value).Ok?
      && Parsed(parse, s.light).Ok? && Parsed(parse, s.distance).Ok?
  }

  /** The record after an entry that applies; unchanged otherwise. */
  function Applied(r: Record, folder: string, device: string, text: string, s: Settings,
                   parse: string -> Option<real>): Record
  {
    if Applies(folder, device, text, s, parse) then
      Settled(r, AreaValue(s.detected, folder, device, TypedArea(text, parse).value).value,
              Parsed(parse, s.light).value, Parsed(parse, s.distance).value)
    else r
  }

  /** One entry against one folder of `matched_devices`. */
  function Write(devs: Dict<string, Record>, folder: string, device: string, text: string, s: Settings,
                 parse: string -> Option<real>): Result<Option<Dict<string, Record>>>
  {
    if !Has(devs, device) then Ok(Some(devs))
    else
      match TypedArea(text, parse)
      case None => Ok(None)
      case Some(typed) =>
        var area :- AreaValue(s.detected, folder, device, typed);
        var light :- Parsed(parse, s.light);
        var distance :- Parsed(parse, s.distance);
        Ok(Some(Put(devs, device, Settled(Get(devs, device), area, light, distance))))
  }

  /** One entry against every folder, in folder order; `Ok(None)` is the
      early `return` after a warning. */
  function EntryPass(m: Folders, device: string, text: string, s: Settings,
                     parse: string -> Option<real>): Result<Option<Folders>>
  {
    if m == [] then Ok(Some([]))
    else
      var prev :- EntryPass(m[..|m| - 1], device, text, s, parse);
      if prev.None? then Ok(None)
      else
        var upd :- Write(m[|m| - 1].1, m[|m| - 1].0, device, text, s, parse);
        if upd.None? then Ok(None) else Ok(Some(prev.value + [(m[|m| - 1].0, upd.value)]))
  }

  /** All entries in widget order. */
  function Update(m: Folders, entries: seq<(string, string)>, s: Settings,
                  parse: string -> Option<real>): Result<Option<Folders>>
  {
    if entries == [] then Ok(Some(m))
    else
      var prev :- Update(m, entries[..|entries| - 1], s, parse);
      if prev.None? then Ok(None)
      else EntryPass(prev.value, entries[|entries| - 1].0, entries[|entries| - 1].1, s, parse)
  }

  /** The text of the last entry labelled `device`. */
  function LastText(entries: seq<(string, string)>, device: string): Option<string>
  {
    if entries == [] then None
    else if entries[|entries| - 1].0 == device then Some(entries[|entries| - 1].1)
    else LastText(entries[..|entries| - 1], device)
  }

  /** A later write of the three settings replaces an earlier one. */
  lemma SettledTwice(r: Record, folder: string, device: string, t1: string, t2: string, s: Settings,
                     parse: string -> Option<real>)
    requires Applies(folder, device, t2, s, parse)
    ensures Applied(Applied(r, folder, device, t1, s, parse), folder, device, t2, s, parse)
         == Applied(r, folder, device, t2, s, parse)
  {
  }

  /** One entry changes only its own device's record, in every folder that
      holds it, and only when the entry applies there. */
  lemma {:induction false} EntryPassWrites(m: Folders, device: string, text: string, s: Settings,
                                           parse: string -> Option<real>, m': Folders, i: nat, name: string)
    requires EntryPass(m, device, text, s, parse) == Ok(Some(m')) && i < |m|
    ensures |m'| == |m| && m'[i].0 == m[i].0 && Keys(m'[i].1) == Keys(m[i].1)
    ensures Has(m[i].1, device) ==> Applies(m[i].0, device, text, s, parse)
    ensures Lookup(m'[i].1, name) ==
      if name == device && Has(m[i].1, name) then Some(Applied(Get(m[i].1, name), m[i].0, device, text, s, parse))
      else Lookup(m[i].1, name)
  {
    var init := m[..|m| - 1];
    var prev := EntryPass(init, device, text, s, parse).value.value;
    var (f, devs) := m[|m| - 1];
    var upd := Write(devs, f, device, text, s, parse).value.value;
    assert m' == prev + [(f, upd)];
    EntryPassLength(init, device, text, s, parse, prev);
    if i < |m| - 1 {
      EntryPassWrites(init, device, text, s, parse, prev, i, name);
      assert m[i] == init[i];
    } else if Has(devs, device) {
      var r := Get(devs, device);
      var a := AreaValue(s.detected, f, device, TypedArea(text, parse).value).value;
      var l := Parsed(parse, s.light).value;
      var d := Parsed(parse, s.distance).value;
      assert upd == Put(devs, device, Settled(r, a, l, d));
      PutKeys(devs, device, Settled(r, a, l, d));
      PutLookup(devs, device, Settled(r, a, l, d), name);
    }
  }

  lemma {:induction false} EntryPassLength(m: Folders, device: string, text: string, s: Settings,
                                           parse: string -> Option<real>, m': Folders)
    requires EntryPass(m, device, text, s, parse) == Ok(Some(m'))
    ensures |m'| == |m|
  {
    if m != [] {
      var init := m[..|m| - 1];
      EntryPassLength(init, device, text, s, parse, EntryPass(init, device, text, s, parse).value.value);
    }
  }

  /** After all entries, a matched record carries the settings of the last
      entry labelled with its device, in every folder, and nothing else
      changed; success means every such entry was valid. */
  lemma {:induction false} UpdateWrites(m: Folders, entries: seq<(string, string)>, s: Settings,
                                        parse: string -> Option<real>, m': Folders, i: nat, name: string)
    requires Update(m, entries, s, parse) == Ok(Some(m')) && i < |m|
    ensures |m'| == |m| && m'[i].0 == m[i].0 && Keys(m'[i].1) == Keys(m[i].1)
    ensures Has(m[i].1, name) && LastText(entries, name).Some? ==>
      Applies(m[i].0, name, LastText(entries, name).value, s, parse)
    ensures Lookup(m'[i].1, name) ==
      match Lookup(m[i].1, name)
      case None => None
      case Some(r) =>
        match LastText(entries, name)
        case None => Some(r)
        case Some(t) => Some(Applied(r, m[i].0, name, t, s, parse))
  {
    if entries != [] {
      var init := entries[..|entries| - 1];
      var (device, text) := entries[|entries| - 1];
      var prev := Update(m, init, s, parse).value.value;
      UpdateWrites(m, init, s, parse, prev, i, name);
      EntryPassWrites(prev, device, text, s, parse, m', i, name);
      assert Has(prev[i].1, name) <==> Has(m[i].1, name);
      if name == device && Has(m[i].1, name) {
        match LastText(init, name) {
          case None =>
          case Some(t1) =>
            SettledTwice(Get(m[i].1, name), m[i].0, name, t1, text, s, parse);
        }
      }
    }
  }

  /** Some folder of `m` holds the device. */
  ghost predicate Holds(m: Folders, device: string)
  {
    exists i :: 0 <= i < |m| && Has(m[i].1, device)
  }

  /** A device is held by the folders when it is held by all but the last
      or by the last. */
  lemma HoldsSnoc(m: Folders, device: string)
    requires m != []
    ensures Holds(m, device) <==> Holds(m[..|m| - 1], device) || Has(m[|m| - 1].1, device)
  {
    var init := m[..|m| - 1];
    if Holds(m, device) {
      var i :| 0 <= i < |m| && Has(m[i].1, device);
      if i < |init| {
        assert init[i] == m[i];
      }
    }
    if Holds(init, device) {
      var i :| 0 <= i < |init| && Has(init[i].1, device);
      assert init[i] == m[i];
    }
  }

  /** Any folder pass of an invalid entry stops with `None` if some folder
      holds the device, and changes nothing otherwise. */
  lemma {:induction false} InvalidEntryPass(m: Folders, device: string, text: string, s: Settings,
                                            parse: string -> Option<real>)
    requires TypedArea(text, parse).None?
    ensures EntryPass(m, device, text, s, parse) ==
      if Holds(m, device) then Ok(None) else Ok(Some(m))
  {
    if m != [] {
      var init := m[..|m| - 1];
      var last := m[|m| - 1];
      InvalidEntryPass(init, device, text, s, parse);
      HoldsSnoc(m, device);
      assert Write(last.1, last.0, device, text, s, parse) ==
        if Has(last.1, device) then Ok(None) else Ok(Some(last.1));
      if !Holds(m, device) {
        PrefixSnoc(m, |m|);
        PrefixAll(m);
      }
    }
  }

  lemma {:induction false} UpdateStaysStopped(m: Folders, entries: seq<(string, string)>, s: Settings,
                                              parse: string -> Option<real>, n: nat)
    requires n <= |entries| && Update(m, entries[..n], s, parse) == Ok(None)
    ensures Update(m, entries, s, parse) == Ok(None)
  {
    if n < |entries| {
      var init := entries[..|entries| - 1];
      assert init[..n] == entries[..n];
      UpdateStaysStopped(m, init, s, parse, n);
    } else {
      PrefixAll(entries);
    }
  }

  /** An empty, non-numeric or non-positive entry for a matched device ends
      the update with `None`, unless an earlier entry already ended it. */
  lemma InvalidEntryStops(m: Folders, entries: seq<(string, string)>, s: Settings,
                          parse: string -> Option<real>, k: nat, i: nat)
    requires k < |entries| && i < |m| && Has(m[i].1, entries[k].0)
    requires TypedArea(entries[k].1, parse).None?
    requires Update(m, entries[..k], s, parse).Ok? && Update(m, entries[..k], s, parse).value.Some?
    ensures Update(m, entries, s, parse) == Ok(None)
  {
    var mk := Update(m, entries[..k], s, parse).value.value;
    UpdateWrites(m, entries[..k], s, parse, mk, i, entries[k].0);
    assert Has(mk[i].1, entries[k].0);
    InvalidEntryPass(mk, entries[k].0, entries[k].1, s, parse);
    PrefixSnoc(entries, k + 1);
    assert entries[..k + 1][..k] == entries[..k];
    UpdateStaysStopped(m, entries, s, parse, k + 1);
  }

  /** `cached_areas[folder][device] = value`, creating the folder's map. */
  function Cached(cache: Dict<string, Dict<string, string>>, folder: string, device: string, value: string)
    : Dict<string, Dict<string, string>>
  {
    var inner := match Lookup(cache, folder) case None => [] case Some(c) => c;
    Put(cache, folder, Put(inner, device, value))
  }

  /** The cache then holds the value for that device and folder, and every
      other cached value is as before. */
  lemma CachedLookup(cache: Dict<string, Dict<string, string>>, folder: string, device: string, value: string,
                     f: string, d: string)
    ensures var c := Cached(cache, folder, device, value);
      Has(c, f) <==> Has(cache, f) || f == folder
    ensures var c := Cached(cache, folder, device, value);
      Has(c, f) ==>
        Lookup(Get(c, f), d) ==
          if f == folder && d == device then Some(value)
          else if Has(cache, f) then Lookup(Get(cache, f), d) else None
  {
    var inner := match Lookup(cache, folder) case None => [] case Some(c) => c;
    PutLookup(cache, folder, Put(inner, device, value), f);
    PutLookup(inner, device, value, d);
  }

  // ---------------------------------------------------------------------
  // `construct_active_areas_entries` and `update_entries_from_cache`

  /** `default_area`: '' when nothing was detected; when every detected
      value is a folder's dictionary, the first area of the first folder,
      whose `next()` raises StopIteration when that folder is empty;
      otherwise the first detected value as an entry shows it. */
  function DefaultArea(detected: Option<Dict<string, Detected>>, show: Detected -> string): (r: Result<string>)
    ensures r.Err? <==>
      detected.Some? && detected.value != []
      && (forall k :: 0 <= k < |detected.value| ==> detected.value[k].1.PerFolder?)
      && detected.value[0].1.areas == []
    ensures r.Ok? && (detected.None? || detected.value == []) ==> r.value == ""
  {
    match detected
    case None => Ok("")
    case Some(dd) =>
      if dd == [] then Ok("")
      else if forall k :: 0 <= k < |dd| ==> dd[k].1.PerFolder? then
        var first := dd[0].1.areas;
        if first == [] then Err(StopIteration("next(iter(first_folder.values()))")) else Ok(show(Area(first[0].1)))
      else Ok(show(dd[0].1))
  }

  /** The text a new entry for `device`, listed under `folder`, starts with:
      the folder's nested detected area, else a detected value under the
      device's own name, else the default area in identical-area mode,
      else ''; nothing is inserted when no area was detected. */
  function EntryText(detected: Option<Dict<string, Detected>>, folder: string, device: string, identical: bool,
                     default: string, show: Detected -> string): string
  {
    match detected
    case None => ""
    case Some(dd) =>
      if dd == [] then ""
      else
        var nested: Option<Detected> := Lookup(dd, folder);
        if nested.Some? && nested.value.PerFolder? && Has(nested.value.areas, device) then
          show(Area(Get(nested.value.areas, device)))
        else if Has(dd, device) then show(Get(dd, device))
        else if identical then default
        else ""
  }

  /** The (folder, device) pairs of one folder, in device order. */
  function InFolder(folder: string, devs: DF.Folder): (p: seq<(string, string)>)
    ensures |p| == |devs| && forall k :: 0 <= k < |p| ==> p[k] == (folder, devs[k].0)
  {
    if devs == [] then [] else InFolder(folder, devs[..|devs| - 1]) + [(folder, devs[|devs| - 1].0)]
  }

  /** The (folder, device) pairs of all folders, folder after folder: the
      order of the two nested loops. */
  function Placed(data: Dict<string, DF.Folder>): seq<(string, string)>
  {
    if data == [] then [] else Placed(data[..|data| - 1]) + InFolder(data[|data| - 1].0, data[|data| - 1].1)
  }

  /** The device names among the pairs. */
  function Names(p: seq<(string, string)>): set<string>
  {
    set k | 0 <= k < |p| :: p[k].1
  }

  /** The pairs whose device does not occur earlier: what `unique_devices`
      lets through. */
  function FirstSeen(p: seq<(string, string)>): seq<(string, string)>
  {
    if p == [] then []
    else
      var init := p[..|p| - 1];
      FirstSeen(init) + if p[|p| - 1].1 in Names(init) then [] else [p[|p| - 1]]
  }

  /** The entry rows for the pairs: each device with its starting text. */
  function EntryRows(p: seq<(string, string)>, detected: Option<Dict<string, Detected>>, identical: bool,
                     default: string, show: Detected -> string): (rows: seq<(string, string)>)
    ensures |rows| == |p|
    ensures forall k :: 0 <= k < |p| ==> rows[k] == (p[k].1, EntryText(detected, p[k].0, p[k].1, identical, default, show))
  {
    if p == [] then []
    else
      var last := p[|p| - 1];
      EntryRows(p[..|p| - 1], detected, identical, default, show)
        + [(last.1, EntryText(detected, last.0, last.1, identical, default, show))]
  }

  lemma EntryRowsSnoc(p: seq<(string, string)>, x: (string, string), detected: Option<Dict<string, Detected>>,
                      identical: bool, default: string, show: Detected -> string)
    ensures EntryRows(p + [x], detected, identical, default, show)
      == EntryRows(p, detected, identical, default, show) + [(x.1, EntryText(detected, x.0, x.1, identical, default, show))]
  {
    assert (p + [x])[..|p|] == p;
  }

  /** One step of the inner loop: the seen names gain the device, and the
      rows gain its row when it was not seen before. */
  lemma ListStep(done: seq<(string, string)>, x: (string, string), detected: Option<Dict<string, Detected>>,
                 identical: bool, default: string, show: Detected -> string)
    ensures Names(done + [x]) == Names(done) + {x.1}
    ensures EntryRows(FirstSeen(done + [x]), detected, identical, default, show)
      == EntryRows(FirstSeen(done), detected, identical, default, show)
         + if x.1 in Names(done) then [] else [(x.1, EntryText(detected, x.0, x.1, identical, default, show))]
  {
    FirstSeenSnoc(done + [x]);
    assert (done + [x])[..|done|] == done;
    if x.1 !in Names(done) {
      EntryRowsSnoc(FirstSeen(done), x, detected, identical, default, show);
    } else {
      assert FirstSeen(done) + [] == FirstSeen(done);
    }
  }

  lemma InFolderStep(folder: string, devs: DF.Folder, j: nat)
    requires j < |devs|
    ensures InFolder(folder, devs[..j + 1]) == InFolder(folder, devs[..j]) + [(folder, devs[j].0)]
  {
    assert devs[..j + 1][..j] == devs[..j];
  }

  /** One pair more: it is listed exactly when its device is new. */
  lemma FirstSeenSnoc(p: seq<(string, string)>)
    requires p != []
    ensures var init, last := p[..|p| - 1], p[|p| - 1];
      FirstSeen(p) == FirstSeen(init) + (if last.1 in Names(init) then [] else [last])
      && Names(p) == Names(init) + {last.1}
  {
    assert p == p[..|p| - 1] + [p[|p| - 1]];
    NamesSnoc(p[..|p| - 1], p[|p| - 1]);
  }

  /** The devices the entry column lists are exactly the devices of the
      pairs. */
  lemma {:induction false} FirstSeenNames(p: seq<(string, string)>)
    ensures Names(FirstSeen(p)) == Names(p)
  {
    if p != [] {
      var init, last := p[..|p| - 1], p[|p| - 1];
      FirstSeenNames(init);
      FirstSeenSnoc(p);
      if last.1 !in Names(init) {
        NamesSnoc(FirstSeen(init), last);
      } else {
        assert FirstSeen(p) == FirstSeen(init) + [] == FirstSeen(init);
        assert Names(p) == Names(init) + {last.1} == Names(init);
      }
    }
  }

  /** No device is listed twice. */
  lemma {:induction false} FirstSeenDistinct(p: seq<(string, string)>)
    ensures var q := FirstSeen(p);
      forall i, j :: 0 <= i < j < |q| ==> q[i].1 != q[j].1
  {
    if p != [] {
      var init, last := p[..|p| - 1], p[|p| - 1];
      FirstSeenDistinct(init);
      FirstSeenSnoc(p);
      FirstSeenNames(init);
      var q0 := FirstSeen(init);
      if last.1 !in Names(init) {
        forall i | 0 <= i < |q0| ensures q0[i].1 != last.1 {
          assert q0[i].1 in Names(q0);
        }
      }
    }
  }

  /** Each listed device comes with the first pair that names it. */
  lemma {:induction false} FirstSeenFirst(p: seq<(string, string)>)
    ensures var q := FirstSeen(p);
      forall k :: 0 <= k < |q| ==> exists i :: 0 <= i < |p| && p[i] == q[k] && q[k].1 !in Names(p[..i])
  {
    if p != [] {
      var init, last := p[..|p| - 1], p[|p| - 1];
      FirstSeenFirst(init);
      FirstSeenSnoc(p);
      var q0 := FirstSeen(init);
      forall k | 0 <= k < |q0|
        ensures exists i :: 0 <= i < |p| && p[i] == q0[k] && q0[k].1 !in Names(p[..i])
      {
        var i :| 0 <= i < |init| && init[i] == q0[k] && q0[k].1 !in Names(init[..i]);
        assert p[..i] == init[..i];
      }
      if last.1 !in Names(init) {
        assert p[|p| - 1] == last && p[..|p| - 1] == init;
      }
    }
  }

  lemma NamesSnoc(a: seq<(string, string)>, x: (string, string))
    ensures Names(a + [x]) == Names(a) + {x.1}
  {
    var b := a + [x];
    forall n | n in Names(b) ensures n in Names(a) + {x.1} {
      var k :| 0 <= k < |b| && b[k].1 == n;
      if k < |a| {
        assert a[k].1 == n;
      }
    }
    forall n | n in Names(a) ensures n in Names(b) {
      var k :| 0 <= k < |a| && a[k].1 == n;
      assert b[k] == a[k];
    }
    assert b[|a|] == x;
  }

  /** A pair is placed exactly when its folder holds that device. */
  lemma {:induction false} PlacedMeaning(data: Dict<string, DF.Folder>, x: (string, string))
    ensures x in Placed(data) <==> exists i, j :: 0 <= i < |data| && 0 <= j < |data[i].1| && x == (data[i].0, data[i].1[j].0)
  {
    if data != [] {
      var init, last := data[..|data| - 1], data[|data| - 1];
      PlacedMeaning(init, x);
      var here := InFolder(last.0, last.1);
      assert Placed(data) == Placed(init) + here;
      if x in Placed(init) {
        var i, j :| 0 <= i < |init| && 0 <= j < |init[i].1| && x == (init[i].0, init[i].1[j].0);
        assert data[i] == init[i];
      } else if x in here {
        var j :| 0 <= j < |here| && here[j] == x;
        assert x == (data[|data| - 1].0, data[|data| - 1].1[j].0);
      }
      if exists i, j :: 0 <= i < |data| && 0 <= j < |data[i].1| && x == (data[i].0, data[i].1[j].0) {
        var i, j :| 0 <= i < |data| && 0 <= j < |data[i].1| && x == (data[i].0, data[i].1[j].0);
        if i < |init| {
          assert init[i] == data[i];
        } else {
          assert here[j] == x;
        }
      }
    }
  }

  /** `{device_name: {} for device_name in devices}`: the source's `{}` is
      the empty text here, since both are falsy. */
  function BlankFolder(devs: DF.Folder): (c: Dict<string, string>)
    ensures Valid(c)
  {
    PutAll(seq(|devs|, k requires 0 <= k < |devs| => (devs[k].0, "")))
  }

  /** The seeded cache: one blank map per folder. */
  function Seeded(data: Dict<string, DF.Folder>): (c: Dict<string, Dict<string, string>>)
    ensures Valid(c)
  {
    PutAll(seq(|data|, i requires 0 <= i < |data| => (data[i].0, BlankFolder(data[i].1))))
  }

  /** A blank folder cache holds the empty text for exactly the folder's
      devices. */
  lemma BlankFolderLookup(devs: DF.Folder, device: string)
    ensures Lookup(BlankFolder(devs), device) == if device in Keys(devs) then Some("") else None
  {
    var es := seq(|devs|, k requires 0 <= k < |devs| => (devs[k].0, ""));
    PutAllLastWins(es, device);
    if device in Keys(devs) {
      var k :| 0 <= k < |devs| && Keys(devs)[k] == device;
      assert es[k].0 == device;
    }
  }

  /** The seeded cache has a blank map for exactly the folders of the
      data, built from that folder's devices. */
  lemma SeededLookup(data: Dict<string, DF.Folder>, folder: string)
    requires Valid(data)
    ensures Lookup(Seeded(data), folder) ==
      match Lookup(data, folder)
      case None => None
      case Some(devs) => Some(BlankFolder(devs))
  {
    var es := seq(|data|, i requires 0 <= i < |data| => (data[i].0, BlankFolder(data[i].1)));
    PutAllLastWins(es, folder);
    if Lookup(Seeded(data), folder).Some? {
      var j :| 0 <= j < |es| && es[j].0 == folder && Lookup(Seeded(data), folder) == Some(es[j].1);
      LookupAt(data, j);
    } else {
      forall j | 0 <= j < |data| ensures Keys(data)[j] != folder {
        assert es[j].0 == data[j].0;
      }
      assert !Has(data, folder);
    }
  }

  /** The loop of `update_entries_from_cache` over the folders: the value
      of `device` in the first folder's cache that holds it. */
  function FirstCached(cache: Dict<string, Dict<string, string>>, device: string): Option<string>
  {
    if cache == [] then None
    else match Lookup(cache[0].1, device)
      case Some(v) => Some(v)
      case None => FirstCached(cache[1..], device)
  }

  /** The text an entry shows after `update_entries_from_cache`: the first
      cached value of its device when that is not the blank seed, otherwise
      the text it had. */
  function RecalledFrom(cache: Dict<string, Dict<string, string>>, row: (string, string)): string
  {
    match FirstCached(cache, row.0)
    case Some(v) => if v != "" then v else row.1
    case None => row.1
  }

  /** Caching a value under a folder makes it the device's first cached
      value when no other folder caches that device. */
  lemma {:induction false} FirstCachedPut(cache: Dict<string, Dict<string, string>>, folder: string, device: string,
                                          inner: Dict<string, string>, v: string)
    requires Lookup(inner, device) == Some(v)
    requires forall i :: 0 <= i < |cache| && cache[i].0 != folder ==> !Has(cache[i].1, device)
    ensures FirstCached(Put(cache, folder, inner), device) == Some(v)
  {
    if cache != [] && cache[0].0 != folder {
      assert Lookup(cache[0].1, device).None?;
      FirstCachedPut(cache[1..], folder, device, inner, v);
    }
  }

  /** A typed text cached for a device under the folder its entry belongs
      to is what the entry shows after the cache is read back, when no
      other folder caches that device. */
  lemma RecalledAfterCached(cache: Dict<string, Dict<string, string>>, folder: string, device: string, v: string,
                            text: string)
    requires v != ""
    requires forall i :: 0 <= i < |cache| && cache[i].0 != folder ==> !Has(cache[i].1, device)
    ensures RecalledFrom(Cached(cache, folder, device, v), (device, text)) == v
  {
    var inner := match Lookup(cache, folder) case None => [] case Some(c) => c;
    PutLookup(inner, device, v, device);
    FirstCachedPut(cache, folder, device, Put(inner, device, v), v);
  }

  /** The widgets of the files table and the active-area column. */
  class TableFrames {
    /** `self.devices`: the detector's devices per folder. */
    var devices: Dict<string, DF.Folder>
    /** `self.cached_areas`: typed areas per folder and device. */
    var cachedAreas: Dict<string, Dict<string, string>>
    /** The detected areas, the light and distance entries. */
    var settings: Settings
    /** The main frame's aging mode and identical-active-areas switch. */
    var aging: bool
    var identical: bool
    /** The active-area Entry widgets as (device label, text) rows. */
    var entries: seq<(string, string)>

    constructor (devices: Dict<string, DF.Folder>, settings: Settings, aging: bool, identical: bool,
                 entries: seq<(string, string)>)
      ensures this.devices == devices && this.settings == settings && this.aging == aging
      ensures this.identical == identical && this.entries == entries && cachedAreas == []
    {
      this.devices := devices;
      this.cachedAreas := [];
      this.settings := settings;
      this.aging := aging;
      this.identical := identical;
      this.entries := entries;
    }

    /** `construct_active_areas_entries(data, ...)`: the old entries go, the
        devices become `data` and the detected areas `detected` (what the
        area detector or the area file gives); working out `default_area`
        may raise StopIteration; an empty cache is seeded with a blank value
        per folder and device; then, through the folders and their devices
        in order, each device name the loops meet for the first time gets
        one entry starting with its detected or default text. */
    method ConstructEntries(data: Dict<string, DF.Folder>, detected: Option<Dict<string, Detected>>,
                            show: Detected -> string) returns (r: Result<()>)
      modifies this`devices, this`settings, this`cachedAreas, this`entries
      ensures devices == data && settings == old(settings).(detected := detected)
      ensures r.Err? <==> DefaultArea(detected, show).Err?
      ensures r.Err? ==> r.error == DefaultArea(detected, show).error && cachedAreas == old(cachedAreas) && entries == []
      ensures r.Ok? ==>
        cachedAreas == (if old(cachedAreas) == [] then Seeded(data) else old(cachedAreas))
        && entries == EntryRows(FirstSeen(Placed(data)), detected, identical, DefaultArea(detected, show).value, show)
    {
      entries := [];
      devices := data;
      settings := settings.(detected := detected);
      var default := DefaultArea(detected, show);
      if default.Err? {
        return Err(default.error);
      }
      if cachedAreas == [] {
        cachedAreas := Seeded(data);
      }
      var rows := ListEntries(data, detected, identical, default.value, show);
      entries := rows;
      r := Ok(());
    }

    /** The nested loops of `construct_active_areas_entries`: the folders in
        order, then their devices, with the names already listed in `seen`. */
    static method ListEntries(data: Dict<string, DF.Folder>, detected: Option<Dict<string, Detected>>,
                              identical: bool, default: string, show: Detected -> string)
      returns (rows: seq<(string, string)>)
      ensures rows == EntryRows(FirstSeen(Placed(data)), detected, identical, default, show)
    {
      var seen: set<string> := {};
      rows := [];
      ghost var done: seq<(string, string)> := [];
      for i := 0 to |data|
        invariant done == Placed(data[..i]) && seen == Names(done)
        invariant rows == EntryRows(FirstSeen(done), detected, identical, default, show)
      {
        ghost var before := done;
        seen, rows, done := ListFolder(data[i].0, data[i].1, seen, rows, done, detected, identical, default, show);
        assert data[..i + 1][..i] == data[..i];
      }
      assert data[..|data|] == data;
    }

    /** The inner loop over one folder's devices: a device not yet seen gets
        its entry row. */
    static method ListFolder(folder: string, devs: DF.Folder, seen0: set<string>, rows0: seq<(string, string)>,
                             ghost done0: seq<(string, string)>, detected: Option<Dict<string, Detected>>,
                             identical: bool, default: string, show: Detected -> string)
      returns (seen: set<string>, rows: seq<(string, string)>, ghost done: seq<(string, string)>)
      requires seen0 == Names(done0) && rows0 == EntryRows(FirstSeen(done0), detected, identical, default, show)
      ensures done == done0 + InFolder(folder, devs) && seen == Names(done)
      ensures rows == EntryRows(FirstSeen(done), detected, identical, default, show)
    {
      seen, rows, done := seen0, rows0, done0;
      for j := 0 to |devs|
        invariant done == done0 + InFolder(folder, devs[..j]) && seen == Names(done)
        invariant rows == EntryRows(FirstSeen(done), detected, identical, default, show)
      {
        var device := devs[j].0;
        ListStep(done, (folder, device), detected, identical, default, show);
        InFolderStep(folder, devs, j);
        if device !in seen {
          seen := seen + {device};
          rows := rows + [(device, EntryText(detected, folder, device, identical, default, show))];
        }
        done := done + [(folder, device)];
      }
      assert devs[..|devs|] == devs;
    }

    /** The inner loop of `update_entries_from_cache`: the folders' caches
        in order until one holds the device. */
    static method FirstCachedScan(cache: Dict<string, Dict<string, string>>, device: string) returns (v: Option<string>)
      ensures v == FirstCached(cache, device)
    {
      v := None;
      var f := 0;
      while f < |cache|
        invariant f <= |cache|
        invariant FirstCached(cache, device) == FirstCached(cache[f..], device)
      {
        assert cache[f..][1..] == cache[f + 1..];
        var found := Lookup(cache[f].1, device);
        if found.Some? {
          v := found;
          return;
        }
        f := f + 1;
      }
    }

    /** `update_entries_from_cache`: every entry, in widget order, shows
        what the cache recalls for its device label. */
    method UpdateEntriesFromCache()
      modifies this`entries
      ensures |entries| == |old(entries)|
      ensures forall k :: 0 <= k < |entries| ==>
        entries[k] == (old(entries)[k].0, RecalledFrom(cachedAreas, old(entries)[k]))
    {
      var es := entries;
      for k := 0 to |es|
        invariant entries == old(entries) && |es| == |entries|
        invariant forall j :: 0 <= j < |es| ==>
          es[j] == if j < k then (entries[j].0, RecalledFrom(cachedAreas, entries[j])) else entries[j]
      {
        var value := FirstCachedScan(cachedAreas, es[k].0);
        if value.Some? && value.value != "" {
          es := es[k := (es[k].0, value.value)];
        }
      }
      entries := es;
    }

    /** `type_dict_fill` after a key release in the entry of row `row`,
        which belongs to `device` of `folder`. Blank input changes nothing; in
        identical-area mode every other entry gets the stripped text, otherwise
        the text is cached for that folder and device. */
    method TypeDictFill(row: nat, folder: string, device: string)
      requires row < |entries|
      modifies this
      ensures devices == old(devices) && settings == old(settings)
      ensures aging == old(aging) && identical == old(identical)
      ensures var v := Strip(old(entries)[row].1);
        if v == [] then entries == old(entries) && cachedAreas == old(cachedAreas)
        else if identical then
          cachedAreas == old(cachedAreas) && |entries| == |old(entries)|
            && forall k :: 0 <= k < |entries| ==>
                 entries[k] == if k == row then old(entries)[k] else (old(entries)[k].0, v)
        else entries == old(entries) && cachedAreas == Cached(old(cachedAreas), folder, device, v)
    {
      var v := Strip(entries[row].1);
      if v == [] {
        return;
      }
      if identical {
        var es := entries;
        for k := 0 to |es|
          invariant |es| == |entries|
          invariant forall j :: 0 <= j < |es| ==>
            es[j] == if j < k && j != row then (entries[j].0, v) else entries[j]
        {
          if k != row {
            es := es[k := (es[k].0, v)];
          }
        }
        entries := es;
      } else {
        var inner := match Lookup(cachedAreas, folder) case None => [] case Some(c) => c;
        cachedAreas := Put(cachedAreas, folder, Put(inner, device, v));
      }
    }

    /** `devices_by_folder` followed by `update_matched_devices_from_entries`. */
    method DevicesByFolder(items: seq<Item>, parse: string -> Option<real>) returns (r: Result<Option<Folders>>)
      ensures r == match Match(Selection(items, aging), devices)
                   case Err(e) => Err(e)
                   case Ok(m) => Update(m, entries, settings, parse)
    {
      var sel := Select(items, aging);
      var matched := MatchSelected(sel, devices);
      if matched.Err? {
        return Err(matched.error);
      }
      r := UpdateMatched(matched.value, parse);
    }

    static method Select(items: seq<Item>, aging: bool) returns (sel: Dict<string, seq<string>>)
      ensures sel == Selection(items, aging)
    {
      var folders: Dict<string, seq<string>> := [];
      var topmost: Option<string> := None;
      for k := 0 to |items|
        invariant SelectFold(items[..k], aging) == Selecting(folders, topmost)
      {
        PrefixSnoc(items, k + 1);
        var item := items[k];
        match item.parent {
          case None =>
            if aging {
              topmost := Some(item.text);
            } else if !Has(folders, item.text) {
              folders := Put(folders, item.text, []);
            }
          case Some(p) =>
            if topmost != Some(p) {
              var files := FilesIn(folders, p);
              folders := Put(folders, p, files + [item.text]);
            }
        }
      }
      PrefixAll(items);
      sel := folders;
    }

    static method MatchSelected(sel: Dict<string, seq<string>>, devices: Dict<string, DF.Folder>)
      returns (r: Result<Folders>)
      ensures r == Match(sel, devices)
    {
      var matched: Folders := [];
      for k := 0 to |sel|
        invariant Match(sel[..k], devices) == Ok(matched)
      {
        PrefixSnoc(sel, k + 1);
        var found := Lookup(devices, sel[k].0);
        if found.None? {
          MatchStaysFailed(sel, devices, k + 1);
          return Err(KeyError(sel[k].0));
        }
        var chosen := ChooseDevices(found.value, sel[k].1);
        if chosen != [] {
          matched := Put(matched, sel[k].0, chosen);
        }
      }
      PrefixAll(sel);
      r := Ok(matched);
    }

    static method ChooseDevices(devs: DF.Folder, files: seq<string>) returns (chosen: Dict<string, Record>)
      ensures chosen == Chosen(devs, files)
    {
      chosen := [];
      for k := 0 to |devs|
        invariant chosen == Chosen(devs[..k], files)
      {
        PrefixSnoc(devs, k + 1);
        var used := devs[k].1.used;
        var picked := match used
          case File(n) => n in files
          case Both(a, b) => (a.File? && a.name in files) || (b.File? && b.name in files);
        if picked {
          chosen := chosen + [(devs[k].0, FromDevice(devs[k].1))];
        }
      }
      PrefixAll(devs);
    }

    /** `update_matched_devices_from_entries`: the entries in widget order. */
    method UpdateMatched(matched: Folders, parse: string -> Option<real>) returns (r: Result<Option<Folders>>)
      ensures r == Update(matched, entries, settings, parse)
    {
      var m := matched;
      for k := 0 to |entries|
        invariant Update(matched, entries[..k], settings, parse) == Ok(Some(m))
      {
        PrefixSnoc(entries, k + 1);
        var step := UpdateEntry(m, entries[k].0, entries[k].1, settings, parse);
        if step.Err? || step.value.None? {
          if step.Err? {
            UpdateFailed(matched, entries, settings, parse, k + 1);
          } else {
            UpdateStaysStopped(matched, entries, settings, parse, k + 1);
          }
          return step;
        }
        m := step.value.value;
      }
      PrefixAll(entries);
      r := Ok(Some(m));
    }

    /** One entry against every folder that holds its device. */
    static method UpdateEntry(m: Folders, device: string, text: string, s: Settings, parse: string -> Option<real>)
      returns (r: Result<Option<Folders>>)
      ensures r == EntryPass(m, device, text, s, parse)
    {
      var done: Folders := [];
      for j := 0 to |m|
        invariant EntryPass(m[..j], device, text, s, parse) == Ok(Some(done))
      {
        PrefixSnoc(m, j + 1);
        var (folder, devs) := m[j];
        if Has(devs, device) {
          var typed := TypedArea(text, parse);
          if typed.None? {
            EntryStaysStopped(m, device, text, s, parse, j + 1);
            return Ok(None);
          }
          var area := AreaValue(s.detected, folder, device, typed.value);
          var light := Parsed(parse, s.light);
          var distance := Parsed(parse, s.distance);
          if area.Err? || light.Err? || distance.Err? {
            EntryFailed(m, device, text, s, parse, j + 1);
            return EntryPass(m[..j + 1], device, text, s, parse);
          }
          devs := Put(devs, device, Settled(Get(devs, device), area.value, light.value, distance.value));
        }
        done := done + [(folder, devs)];
      }
      PrefixAll(m);
      r := Ok(Some(done));
    }
  }

  lemma {:induction false} UpdateFailed(m: Folders, entries: seq<(string, string)>, s: Settings,
                                        parse: string -> Option<real>, n: nat)
    requires n <= |entries| && Update(m, entries[..n], s, parse).Err?
    ensures Update(m, entries, s, parse) == Update(m, entries[..n], s, parse)
  {
    if n < |entries| {
      var init := entries[..|entries| - 1];
      assert init[..n] == entries[..n];
      UpdateFailed(m, init, s, parse, n);
    } else {
      PrefixAll(entries);
    }
  }

  lemma {:induction false} EntryStaysStopped(m: Folders, device: string, text: string, s: Settings,
                                             parse: string -> Option<real>, n: nat)
    requires n <= |m| && EntryPass(m[..n], device, text, s, parse) == Ok(None)
    ensures EntryPass(m, device, text, s, parse) == Ok(None)
  {
    if n < |m| {
      var init := m[..|m| - 1];
      assert init[..n] == m[..n];
      EntryStaysStopped(init, device, text, s, parse, n);
    } else {
      PrefixAll(m);
    }
  }

  lemma {:induction false} EntryFailed(m: Folders, device: string, text: string, s: Settings,
                                       parse: string -> Option<real>, n: nat)
    requires n <= |m| && EntryPass(m[..n], device, text, s, parse).Err?
    ensures EntryPass(m, device, text, s, parse) == EntryPass(m[..n], device, text, s, parse)
  {
    if n < |m| {
      var init := m[..|m| - 1];
      assert init[..n] == m[..n];
      EntryFailed(init, device, text, s, parse, n);
    } else {
      PrefixAll(m);
    }
  }
}
