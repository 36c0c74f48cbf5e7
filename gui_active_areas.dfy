/** The active-area detector of the GUI revision: instead of choosing one
    file it reads every candidate file in listing order and merges their
    areas, a later file overriding an earlier one. The candidate filter and
    the readers are those of the JV plotter's detector. */
module GuiActiveAreas {
  import opened Wrappers
  import opened Dicts
  import AA = ActiveAreas

  /** `acc.update(d)`: the entries of `d` written over `acc` in order. */
  function Update(acc: AA.Areas, d: AA.Areas): (r: AA.Areas)
    ensures Valid(acc) ==> Valid(r)
  {
    if d == [] then acc
    else
      var prev := Update(acc, d[..|d| - 1]);
      var e := d[|d| - 1];
      if Valid(prev) then PutValid(prev, e.0, e.1); Put(prev, e.0, e.1)
      else Put(prev, e.0, e.1)
  }

  /** A key `d` holds takes its value from `d`; any other keeps its value in `acc`. */
  lemma {:induction false} UpdateLookup(acc: AA.Areas, d: AA.Areas, n: nat, k: string)
    requires Valid(d) && n <= |d|
    ensures Lookup(Update(acc, d[..n]), k) ==
      if Lookup(d[..n], k).Some? then Lookup(d[..n], k) else Lookup(acc, k)
  {
    if n > 0 {
      UpdateLookup(acc, d, n - 1, k);
      PrefixSnoc(d, n);
      ConcatPrefix(d[..n - 1], [d[n - 1]]);
      PutLookup(Update(acc, d[..n - 1]), d[n - 1].0, d[n - 1].1, k);
      LookupPrefix(d, n, k);
    }
  }

  /** The merge of all files' areas, oldest first. */
  function MergeAll(ds: seq<AA.Areas>): (r: AA.Areas)
    ensures Valid(r)
  {
    if ds == [] then [] else Update(MergeAll(ds[..|ds| - 1]), ds[|ds| - 1])
  }

  /** Every file's areas form a dictionary. */
  predicate AllValid(ds: seq<AA.Areas>)
  {
    ds == [] || (AllValid(ds[..|ds| - 1]) && Valid(ds[|ds| - 1]))
  }

  /** A key of the merge is a key of some file, and its value is the one in
      the last file holding it. */
  lemma MergeAllLookup(ds: seq<AA.Areas>, k: string)
    requires AllValid(ds)
    ensures Lookup(MergeAll(ds), k).Some? <==> exists i :: 0 <= i < |ds| && Has(ds[i], k)
    ensures Lookup(MergeAll(ds), k).Some? ==>
      exists i :: 0 <= i < |ds| && Has(ds[i], k) && Lookup(MergeAll(ds), k) == Lookup(ds[i], k) &&
        forall j :: i < j < |ds| ==> !Has(ds[j], k)
  {
    MergeAllHas(ds, k);
    if Lookup(MergeAll(ds), k).Some? {
      var i := MergeAllLast(ds, k);
      assert 0 <= i < |ds| && Has(ds[i], k) && Lookup(MergeAll(ds), k) == Lookup(ds[i], k);
    }
  }

  /** The merge holds exactly the keys some file holds. */
  lemma {:induction false} MergeAllHas(ds: seq<AA.Areas>, k: string)
    requires AllValid(ds)
    ensures Lookup(MergeAll(ds), k).Some? <==> exists i :: 0 <= i < |ds| && Has(ds[i], k)
  {
    if ds != [] {
      var n := |ds| - 1;
      var init := ds[..n];
      MergeAllHas(init, k);
      MergeStep(ds, k);
      if !Has(ds[n], k) {
        if exists i :: 0 <= i < |ds| && Has(ds[i], k) {
          var i :| 0 <= i < |ds| && Has(ds[i], k);
          assert i < n && init[i] == ds[i];
        }
        if Lookup(MergeAll(init), k).Some? {
          var i :| 0 <= i < |init| && Has(init[i], k);
          assert init[i] == ds[i];
        }
      }
    }
  }

  /** A key of the merge takes its value from the last file holding it. */
  lemma {:induction false} MergeAllLast(ds: seq<AA.Areas>, k: string) returns (i: nat)
    requires AllValid(ds) && Lookup(MergeAll(ds), k).Some?
    ensures i < |ds| && Has(ds[i], k) && Lookup(MergeAll(ds), k) == Lookup(ds[i], k)
    ensures forall j :: i < j < |ds| ==> !Has(ds[j], k)
  {
    var n := |ds| - 1;
    MergeStep(ds, k);
    if Has(ds[n], k) {
      i := n;
    } else {
      var init := ds[..n];
      i := MergeAllLast(init, k);
      assert init[i] == ds[i];
      forall j | i < j < |ds|
        ensures !Has(ds[j], k)
      {
        if j < n {
          assert init[j] == ds[j];
        }
      }
    }
  }

  /** The last file decides a key it holds; otherwise the earlier merge does. */
  lemma MergeStep(ds: seq<AA.Areas>, k: string)
    requires ds != [] && Valid(ds[|ds| - 1])
    ensures Lookup(MergeAll(ds), k) ==
      if Has(ds[|ds| - 1], k) then Lookup(ds[|ds| - 1], k) else Lookup(MergeAll(ds[..|ds| - 1]), k)
  {
    var d := ds[|ds| - 1];
    UpdateLookup(MergeAll(ds[..|ds| - 1]), d, |d|, k);
    PrefixAll(d);
  }

  /** The file reader `processors[extension]` of folder `path`. */
  function Reader(disk: AA.Disk, path: string, parse: string -> Option<real>, show: real -> string): string -> Result<AA.Areas>
  {
    f => AA.ReadAreas(disk, path, f, parse, show)
  }

  /** The areas of every file in order, or the first failing file's error. */
  function ReadAll(files: seq<string>, read: string -> Result<AA.Areas>): (r: Result<seq<AA.Areas>>)
    ensures r.Ok? ==> |r.value| == |files|
  {
    if files == [] then Ok([])
    else
      var init :- ReadAll(files[..|files| - 1], read);
      var d :- read(files[|files| - 1]);
      Ok(init + [d])
  }

  /** The reads succeed when every file reads, and then each is that file's
      areas; a failure is the first failing file's. */
  lemma {:induction false} ReadAllMeaning(files: seq<string>, read: string -> Result<AA.Areas>)
    ensures ReadAll(files, read).Ok? <==> forall i :: 0 <= i < |files| ==> read(files[i]).Ok?
    ensures ReadAll(files, read).Ok? ==>
      forall i :: 0 <= i < |files| ==> ReadAll(files, read).value[i] == read(files[i]).value
    ensures ReadAll(files, read).Err? ==>
      exists i :: 0 <= i < |files| && read(files[i]).Err? &&
        ReadAll(files, read) == Err(read(files[i]).error) &&
        forall j :: 0 <= j < i ==> read(files[j]).Ok?
  {
    if files != [] {
      var init := files[..|files| - 1];
      ReadAllMeaning(init, read);
      assert forall i :: 0 <= i < |init| ==> init[i] == files[i];
    }
  }

  /** Every file the GUI reads gives a dictionary. */
  lemma {:induction false} ReadAllValid(disk: AA.Disk, path: string, files: seq<string>, parse: string -> Option<real>, show: real -> string)
    requires ReadAll(files, Reader(disk, path, parse, show)).Ok?
    ensures AllValid(ReadAll(files, Reader(disk, path, parse, show)).value)
  {
    if files != [] {
      var init := files[..|files| - 1];
      ReadAllValid(disk, path, init, parse, show);
      var ds := ReadAll(files, Reader(disk, path, parse, show)).value;
      ConcatPrefix(ReadAll(init, Reader(disk, path, parse, show)).value, [ds[|ds| - 1]]);
    }
  }

  lemma {:induction false} ReadAllStaysFailed(files: seq<string>, n: nat, read: string -> Result<AA.Areas>)
    requires n <= |files| && ReadAll(files[..n], read).Err?
    ensures ReadAll(files, read) == ReadAll(files[..n], read)
    decreases |files| - n
  {
    if n < |files| {
      PrefixSnoc(files, n + 1);
      ReadAllStaysFailed(files, n + 1, read);
    } else {
      PrefixAll(files);
    }
  }

  lemma MergeAllSnoc(ds: seq<AA.Areas>, d: AA.Areas)
    ensures MergeAll(ds + [d]) == Update(MergeAll(ds), d)
  {
    assert (ds + [d])[..|ds|] == ds;
  }

  /** The merge of the files' areas, or the first failing file's error. */
  function Merged(files: seq<string>, read: string -> Result<AA.Areas>): Result<AA.Areas>
  {
    var ds :- ReadAll(files, read);
    Ok(MergeAll(ds))
  }

  /** The outcome of `check_directory`: the merge of all candidate files,
      None when it holds nothing. */
  function Detection(disk: AA.Disk, path: string, similar: string -> real, parse: string -> Option<real>, show: real -> string)
    : Result<Option<AA.Areas>>
  {
    var m :- Merged(AA.Candidates(disk.listing, similar), Reader(disk, path, parse, show));
    Ok(if m == [] then None else Some(m))
  }

  class GuiActiveAreaDetector {
    var path: string
    var filepath: string

    constructor (path: string)
      ensures this.path == path && filepath == ""
    {
      this.path := path;
      filepath := "";
    }

    /** Reads and merges every candidate file, remembering the path of the
        file read last. */
    method CheckDirectory(disk: AA.Disk, similar: string -> real, parse: string -> Option<real>, show: real -> string)
      returns (r: Result<Option<AA.Areas>>)
      modifies this
      ensures path == old(path)
      ensures r == Detection(disk, path, similar, parse, show)
      ensures AA.Candidates(disk.listing, similar) == [] ==> filepath == old(filepath)
      ensures r.Ok? && AA.Candidates(disk.listing, similar) != [] ==>
        filepath == AA.PathJoin(path, AA.Candidates(disk.listing, similar)[|AA.Candidates(disk.listing, similar)| - 1])
    {
      var valid := AA.Candidates(disk.listing, similar);
      var m := MergeFiles(Reader(disk, path, parse, show), valid);
      r := if m.Err? then Err(m.error) else if m.value == [] then Ok(None) else Ok(Some(m.value));
    }

    /** The loop of `check_directory`: each file's areas, as `read` (the
        reader its extension selects) gives them, written over the areas
        read so far. */
    method MergeFiles(read: string -> Result<AA.Areas>, valid: seq<string>)
      returns (r: Result<AA.Areas>)
      modifies this
      ensures path == old(path)
      ensures r == Merged(valid, read)
      ensures valid == [] ==> filepath == old(filepath)
      ensures r.Ok? && valid != [] ==> filepath == AA.PathJoin(path, valid[|valid| - 1])
    {
      var result: AA.Areas := [];
      ghost var ds: seq<AA.Areas> := [];
      for k := 0 to |valid|
        invariant ReadAll(valid[..k], read) == Ok(ds)
        invariant result == MergeAll(ds)
        invariant k == 0 ==> filepath == old(filepath)
        invariant k > 0 ==> filepath == AA.PathJoin(path, valid[k - 1])
        invariant path == old(path)
      {
        PrefixSnoc(valid, k + 1);
        filepath := AA.PathJoin(path, valid[k]);
        var d := read(valid[k]);
        if d.Err? {
          ReadAllStaysFailed(valid, k + 1, read);
          return Err(d.error);
        }
        MergeAllSnoc(ds, d.value);
        result := Update(result, d.value);
        ds := ds + [d.value];
      }
      PrefixAll(valid);
      r := Ok(result);
    }
  }
}
