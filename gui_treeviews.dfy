/** The older file tree and area entries of GUI/Treeviews_frame.py. Devices
    form one flat map, a device is kept when any selected folder's files
    pick it, and the typed area is stored as typed under 'Active area'.
    Nothing upstream in this revision writes 'Used files', so the device
    test reads a missing key. */
module GuiTreeviews {
  import opened Wrappers
  import opened Dicts
  import opened Strs
  import opened Frames
  import DF = DeviceFilter
  import TV = Treeviews

  /** A device of `self.devices`: its sweeps, its 'Used files' when the key
      is there, and its 'Active area' once an entry was applied. */
  datatype Device = Device(data: Dict<string, Frame>, used: Option<DF.Used>, area: Option<real>)

  // ---------------------------------------------------------------------
  // `devices_by_folder`

  /** The devices among the first `n` that the files of one folder pick, in
      device order; a device without 'Used files' raises KeyError. */
  function FolderPicks(devices: Dict<string, Device>, files: seq<string>, n: nat): Result<seq<string>>
    requires n <= |devices|
  {
    if n == 0 then Ok([])
    else
      var prev :- FolderPicks(devices, files, n - 1);
      match devices[n - 1].1.used
      case None => Err(KeyError("Used files"))
      case Some(u) => Ok(if TV.Picked(u, files) then prev + [devices[n - 1].0] else prev)
  }

  /** `devices_to_retain` before de-duplication: folder after folder. */
  function Picks(sel: Dict<string, seq<string>>, devices: Dict<string, Device>): Result<seq<string>>
  {
    if sel == [] then Ok([])
    else
      var prev :- Picks(sel[..|sel| - 1], devices);
      var more :- FolderPicks(devices, sel[|sel| - 1].1, |devices|);
      Ok(prev + more)
  }

  /** One folder picks a device iff one of the device entries with that name
      has 'Used files' that the folder's files pick. */
  lemma {:induction false} FolderPicksMeaning(devices: Dict<string, Device>, files: seq<string>, n: nat, name: string)
    requires n <= |devices| && FolderPicks(devices, files, n).Ok?
    ensures name in FolderPicks(devices, files, n).value <==>
      exists j :: 0 <= j < n && devices[j].0 == name && devices[j].1.used.Some?
        && TV.Picked(devices[j].1.used.value, files)
  {
    if n > 0 {
      FolderPicksMeaning(devices, files, n - 1, name);
    }
  }

  /** With any folder selected, a device lacking 'Used files' fails the
      whole selection with KeyError; otherwise it cannot fail. */
  lemma {:induction false} PicksFail(sel: Dict<string, seq<string>>, devices: Dict<string, Device>)
    ensures Picks(sel, devices).Err? <==>
      sel != [] && exists j :: 0 <= j < |devices| && devices[j].1.used.None?
    ensures Picks(sel, devices).Err? ==> Picks(sel, devices).error == KeyError("Used files")
  {
    if sel != [] {
      PicksFail(sel[..|sel| - 1], devices);
      FolderPicksFail(devices, sel[|sel| - 1].1, |devices|);
    }
  }

  lemma {:induction false} FolderPicksFail(devices: Dict<string, Device>, files: seq<string>, n: nat)
    requires n <= |devices|
    ensures FolderPicks(devices, files, n).Err? <==> exists j :: 0 <= j < n && devices[j].1.used.None?
    ensures FolderPicks(devices, files, n).Err? ==> FolderPicks(devices, files, n).error == KeyError("Used files")
  {
    if n > 0 {
      FolderPicksFail(devices, files, n - 1);
    }
  }

  predicate PickedBy(devices: Dict<string, Device>, files: seq<string>, name: string)
  {
    var p := FolderPicks(devices, files, |devices|);
    p.Ok? && name in p.value
  }

  /** A device is retained iff some selected folder picks it. */
  lemma {:induction false} PicksMeaning(sel: Dict<string, seq<string>>, devices: Dict<string, Device>, name: string)
    requires Picks(sel, devices).Ok?
    ensures name in Picks(sel, devices).value <==>
      exists k :: 0 <= k < |sel| && PickedBy(devices, sel[k].1, name)
  {
    if sel != [] {
      var init := sel[..|sel| - 1];
      PicksMeaning(init, devices, name);
      assert forall k :: 0 <= k < |init| ==> init[k] == sel[k];
    }
  }

  /** `list(set(names))`, taken here in order of first appearance. */
  function Unique(names: seq<string>): (r: seq<string>)
    ensures Distinct(r)
    ensures forall x :: x in r <==> x in names
  {
    if names == [] then []
    else
      var prev := Unique(names[..|names| - 1]);
      assert forall x :: x in names <==> x in names[..|names| - 1] || x == names[|names| - 1];
      if names[|names| - 1] in prev then prev else prev + [names[|names| - 1]]
  }

  /** `{k: self.devices[k] for k in names}`. */
  function Retain(names: seq<string>, devices: Dict<string, Device>): (m: Dict<string, Device>)
    requires forall x :: x in names ==> Has(devices, x)
    ensures Keys(m) == names
  {
    if names == [] then []
    else Retain(names[..|names| - 1], devices) + [(names[|names| - 1], Get(devices, names[|names| - 1]))]
  }

  lemma {:induction false} RetainLookup(names: seq<string>, devices: Dict<string, Device>, name: string)
    requires forall x :: x in names ==> Has(devices, x)
    requires Distinct(names)
    ensures Lookup(Retain(names, devices), name) == if name in names then Lookup(devices, name) else None
  {
    if names != [] {
      var init := names[..|names| - 1];
      var last := names[|names| - 1];
      assert names == init + [last];
      var r := Retain(init, devices);
      assert Retain(names, devices) == r + [(last, Get(devices, last))];
      assert forall k :: 0 <= k < |init| ==> init[k] == names[k];
      assert forall i :: 0 <= i < |init| ==> init[i] != last;
      RetainLookup(init, devices, name);
      LookupSnoc(r, last, Get(devices, last), name);
      assert Keys(r) == init;
    }
  }

  /** The retained devices of the selected rows, before the entries apply. */
  function Matched(items: seq<TV.Item>, devices: Dict<string, Device>): Result<Dict<string, Device>>
  {
    var picked :- Picks(TV.Selection(items, false), devices);
    PickedKnown(TV.Selection(items, false), devices);
    Ok(Retain(Unique(picked), devices))
  }

  lemma PickedKnown(sel: Dict<string, seq<string>>, devices: Dict<string, Device>)
    requires Picks(sel, devices).Ok?
    ensures forall x :: x in Picks(sel, devices).value ==> Has(devices, x)
  {
    forall x | x in Picks(sel, devices).value ensures Has(devices, x) {
      PicksMeaning(sel, devices, x);
      var k :| 0 <= k < |sel| && PickedBy(devices, sel[k].1, x);
      FolderPicksMeaning(devices, sel[k].1, |devices|, x);
      var j :| 0 <= j < |devices| && devices[j].0 == x;
      assert Keys(devices)[j] == x;
    }
  }

  // ---------------------------------------------------------------------
  // `update_matched_devices_from_entries`

  /** All entries in widget order; an entry of a device that is not
      matched is skipped, a blank or non-numeric one ends with `None`. */
  function Update(m: Dict<string, Device>, entries: seq<(string, string)>, parse: string -> Option<real>)
    : Option<Dict<string, Device>>
  {
    if entries == [] then Some(m)
    else
      match Update(m, entries[..|entries| - 1], parse)
      case None => None
      case Some(prev) =>
        var (device, text) := entries[|entries| - 1];
        if !Has(prev, device) then Some(prev)
        else if Strip(text) == [] || parse(text).None? then None
        else Some(Put(prev, device, Get(prev, device).(area := Some(parse(text).value))))
  }

  /** After all entries a matched device holds the number of the last entry
      labelled with it, as typed, without unit conversion or sign check, and
      no device was added or removed. */
  lemma {:induction false} UpdateWrites(m: Dict<string, Device>, entries: seq<(string, string)>,
                                        parse: string -> Option<real>, m': Dict<string, Device>, name: string)
    requires Update(m, entries, parse) == Some(m')
    ensures Keys(m') == Keys(m)
    ensures Has(m, name) && TV.LastText(entries, name).Some? ==> parse(TV.LastText(entries, name).value).Some?
    ensures Lookup(m', name) ==
      match Lookup(m, name)
      case None => None
      case Some(d) =>
        match TV.LastText(entries, name)
        case None => Some(d)
        case Some(t) => Some(d.(area := Some(parse(t).value)))
  {
    if entries != [] {
      var init := entries[..|entries| - 1];
      var (device, text) := entries[|entries| - 1];
      var prev := Update(m, init, parse).value;
      UpdateWrites(m, init, parse, prev, name);
      if Has(prev, device) {
        var d' := Get(prev, device).(area := Some(parse(text).value));
        PutKeys(prev, device, d');
        PutLookup(prev, device, d', name);
      }
    }
  }

  /** A blank or non-numeric entry for a matched device ends the update with
      `None`, unless an earlier entry already did. */
  lemma InvalidEntryStops(m: Dict<string, Device>, entries: seq<(string, string)>, parse: string -> Option<real>,
                          k: nat)
    requires k < |entries| && Has(m, entries[k].0)
    requires Strip(entries[k].1) == [] || parse(entries[k].1).None?
    requires Update(m, entries[..k], parse).Some?
    ensures Update(m, entries, parse).None?
  {
    var mk := Update(m, entries[..k], parse).value;
    UpdateWrites(m, entries[..k], parse, mk, entries[k].0);
    PrefixSnoc(entries, k + 1);
    assert entries[..k + 1][..k] == entries[..k];
    UpdateStaysStopped(m, entries, parse, k + 1);
  }

  lemma {:induction false} UpdateStaysStopped(m: Dict<string, Device>, entries: seq<(string, string)>,
                                              parse: string -> Option<real>, n: nat)
    requires n <= |entries| && Update(m, entries[..n], parse).None?
    ensures Update(m, entries, parse).None?
  {
    if n < |entries| {
      var init := entries[..|entries| - 1];
      assert init[..n] == entries[..n];
      UpdateStaysStopped(m, init, parse, n);
    } else {
      PrefixAll(entries);
    }
  }

  /** The text a new entry starts with: in identical-area mode the first
      detected area, otherwise the device's own detected area or ''; nothing
      when no area was detected. */
  function DefaultText(detected: Option<Dict<string, real>>, identical: bool, device: string, show: real -> string)
    : string
  {
    match detected
    case None => ""
    case Some(areas) =>
      if areas == [] then ""
      else if identical then show(areas[0].1)
      else match Lookup(areas, device) case None => "" case Some(a) => show(a)
  }

  /** `{key: {} for key in devices}`: every device with an empty value,
      in device order. */
  function Blank(devices: Dict<string, Device>): (c: Dict<string, string>)
    ensures Keys(c) == Keys(devices)
    ensures forall name :: Lookup(c, name) == if Has(devices, name) then Some("") else None
  {
    var c := seq(|devices|, k requires 0 <= k < |devices| => (devices[k].0, ""));
    assert Keys(c) == Keys(devices);
    assert forall name | Has(c, name) :: Get(c, name) == "" by {
      forall name | Has(c, name) ensures Get(c, name) == "" {
        LookupIn(c, name);
      }
    }
    c
  }

  /** The text an entry shows after `update_entries_from_cache`: its
      device's cached value when that is there and not empty (an empty
      value is falsy), otherwise the text it had. */
  function Recalled(cache: Dict<string, string>, row: (string, string)): string
  {
    match Lookup(cache, row.0)
    case Some(t) => if t != "" then t else row.1
    case None => row.1
  }

  /** A non-empty text typed for a device and cached is what its entry
      shows after the cache is read back. */
  lemma RecalledAfterFill(cache: Dict<string, string>, device: string, v: string, text: string)
    requires v != ""
    ensures Recalled(Put(cache, device, v), (device, text)) == v
  {
    PutLookup(cache, device, v, device);
  }

  /** The widgets of the older files table and active-area column. */
  class GuiTableFrames {
    var devices: Dict<string, Device>
    /** `self.cached_areas`: typed text per device. */
    var cachedAreas: Dict<string, string>
    var identical: bool
    /** The active-area Entry widgets as (device label, text) rows. */
    var entries: seq<(string, string)>

    constructor (devices: Dict<string, Device>, identical: bool)
      ensures this.devices == devices && this.identical == identical && cachedAreas == [] && entries == []
    {
      this.devices := devices;
      this.identical := identical;
      this.cachedAreas := [];
      this.entries := [];
    }

    /** `construct_active_areas_entries`: the devices become `found`, what
        `DeviceDetector(data).detect_and_filter()` returns; an empty cache
        is seeded with one empty value per device (the source's `{}`,
        falsy like the empty text); the entry rows are one per device in
        order, labelled with its name and filled from the detected areas. */
    method ConstructEntries(found: Dict<string, Device>, detected: Option<Dict<string, real>>, show: real -> string)
      modifies this`devices, this`cachedAreas, this`entries
      ensures devices == found
      ensures cachedAreas == if old(cachedAreas) == [] then Blank(found) else old(cachedAreas)
      ensures |entries| == |found|
      ensures forall k :: 0 <= k < |entries| ==>
        entries[k] == (found[k].0, DefaultText(detected, identical, found[k].0, show))
    {
      devices := found;
      if cachedAreas == [] {
        cachedAreas := Blank(devices);
      }
      var rows: seq<(string, string)> := [];
      for k := 0 to |devices|
        invariant |rows| == k
        invariant forall j :: 0 <= j < k ==> rows[j] == (devices[j].0, DefaultText(detected, identical, devices[j].0, show))
      {
        var text := "";
        if detected.Some? && detected.value != [] {
          if identical {
            text := show(detected.value[0].1);
          } else if Has(detected.value, devices[k].0) {
            text := show(Get(detected.value, devices[k].0));
          }
        }
        rows := rows + [(devices[k].0, text)];
      }
      entries := rows;
    }

    /** `update_entries_from_cache`: every entry, in widget order, shows
        what the cache recalls for its device label. */
    method UpdateEntriesFromCache()
      modifies this`entries
      ensures |entries| == |old(entries)|
      ensures forall k :: 0 <= k < |entries| ==>
        entries[k] == (old(entries)[k].0, Recalled(cachedAreas, old(entries)[k]))
    {
      var es := entries;
      for k := 0 to |es|
        invariant |es| == |entries|
        invariant forall j :: 0 <= j < |es| ==>
          es[j] == if j < k then (entries[j].0, Recalled(cachedAreas, entries[j])) else entries[j]
      {
        match Lookup(cachedAreas, es[k].0)
        case Some(t) =>
          if t != "" {
            es := es[k := (es[k].0, t)];
          }
        case None =>
      }
      entries := es;
    }

    /** `type_dict_fill`: the text, unstripped and even blank, goes to every
        other entry in identical-area mode, to the cache otherwise. */
    method TypeDictFill(row: nat, device: string)
      requires row < |entries|
      modifies this
      ensures devices == old(devices) && identical == old(identical)
      ensures var v := old(entries)[row].1;
        if identical then
          cachedAreas == old(cachedAreas) && |entries| == |old(entries)|
            && forall k :: 0 <= k < |entries| ==>
                 entries[k] == if k == row then old(entries)[k] else (old(entries)[k].0, v)
        else entries == old(entries) && cachedAreas == Put(old(cachedAreas), device, v)
    {
      var v := entries[row].1;
      if identical {
        var es := entries;
        for k := 0 to |es|
          invariant |es| == |entries|
          invariant forall j :: 0 <= j < |es| ==>
            es[j] == if j < k && j != row then (entries[j].0, v) else entries[j]
        {
          if k != row {
            es := es[k := (es[k].0, v)];
          }
        }
        entries := es;
      } else {
        cachedAreas := Put(cachedAreas, device, v);
      }
    }

    /** `devices_by_folder` followed by `update_matched_devices_from_entries`. */
    method DevicesByFolder(items: seq<TV.Item>, parse: string -> Option<real>)
      returns (r: Result<Option<Dict<string, Device>>>)
      ensures r == match Matched(items, devices)
                   case Err(e) => Err(e)
                   case Ok(m) => Ok(Update(m, entries, parse))
    {
      var sel := TV.TableFrames.Select(items, false);
      var picked := PickDevices(sel, devices);
      if picked.Err? {
        return Err(picked.error);
      }
      PickedKnown(sel, devices);
      var names := Deduplicate(picked.value);
      var matched := Retain(names, devices);
      var u := UpdateMatched(matched, parse);
      r := Ok(u);
    }

    static method PickDevices(sel: Dict<string, seq<string>>, devices: Dict<string, Device>)
      returns (r: Result<seq<string>>)
      ensures r == Picks(sel, devices)
    {
      var retain: seq<string> := [];
      for k := 0 to |sel|
        invariant Picks(sel[..k], devices) == Ok(retain)
      {
        PrefixSnoc(sel, k + 1);
        var files := sel[k].1;
        var more: seq<string> := [];
        for j := 0 to |devices|
          invariant FolderPicks(devices, files, j) == Ok(more)
        {
          var used := devices[j].1.used;
          if used.None? {
            FolderPicksStayFailed(devices, files, j + 1, |devices|);
            PicksStayFailed(sel, devices, k + 1);
            return Err(KeyError("Used files"));
          }
          if TV.Picked(used.value, files) {
            more := more + [devices[j].0];
          }
        }
        retain := retain + more;
      }
      PrefixAll(sel);
      r := Ok(retain);
    }

    static method Deduplicate(names: seq<string>) returns (r: seq<string>)
      ensures r == Unique(names)
    {
      r := [];
      for k := 0 to |names|
        invariant r == Unique(names[..k])
      {
        PrefixSnoc(names, k + 1);
        if names[k] !in r {
          r := r + [names[k]];
        }
      }
      PrefixAll(names);
    }

    method UpdateMatched(matched: Dict<string, Device>, parse: string -> Option<real>)
      returns (r: Option<Dict<string, Device>>)
      ensures r == Update(matched, entries, parse)
    {
      var m := matched;
      for k := 0 to |entries|
        invariant Update(matched, entries[..k], parse) == Some(m)
      {
        PrefixSnoc(entries, k + 1);
        var (device, text) := entries[k];
        if Has(m, device) {
          if Strip(text) == [] || parse(text).None? {
            UpdateStaysStopped(matched, entries, parse, k + 1);
            return None;
          }
          m := Put(m, device, Get(m, device).(area := Some(parse(text).value)));
        }
      }
      PrefixAll(entries);
      r := Some(m);
    }
  }

  lemma {:induction false} FolderPicksStayFailed(devices: Dict<string, Device>, files: seq<string>, n: nat, n': nat)
    requires n <= n' <= |devices| && FolderPicks(devices, files, n).Err?
    ensures FolderPicks(devices, files, n') == FolderPicks(devices, files, n)
  {
    if n < n' {
      FolderPicksStayFailed(devices, files, n, n' - 1);
    }
  }

  lemma {:induction false} PicksStayFailed(sel: Dict<string, seq<string>>, devices: Dict<string, Device>, n: nat)
    requires 0 < n <= |sel| && Picks(sel[..n - 1], devices).Ok?
    requires FolderPicks(devices, sel[n - 1].1, |devices|).Err?
    ensures Picks(sel, devices) == Err(FolderPicks(devices, sel[n - 1].1, |devices|).error)
  {
    if n < |sel| {
      var init := sel[..|sel| - 1];
      assert init[..n - 1] == sel[..n - 1] && init[n - 1] == sel[n - 1];
      PicksStayFailed(init, devices, n);
    } else {
      PrefixAll(sel);
    }
  }
}
