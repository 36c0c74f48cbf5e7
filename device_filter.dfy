/** Device matching of JV_plotter_GUI/Device_filter.py: files measured with
    one Forward and one Reverse sweep are devices on their own; a file with
    a single sweep is paired with the best fuzzy-matching file of the
    opposite direction; files with several sweeps of a direction are kept.
    The fuzzy score (`fuzz.ratio`) is a parameter. */
module DeviceFilter {
  import opened Wrappers
  import opened Strs
  import opened Dicts
  import opened Frames

  datatype Direction = Forward | Reverse

  function Opposite(d: Direction): Direction
  {
    if d == Forward then Reverse else Forward
  }

  /** The 'Sweeps' counts of a file. */
  datatype Counts = Counts(total: int, forward: int, reverse: int)

  /** 'Used files': one file name, or the pair a combined device came from. */
  datatype Used = File(name: string) | Both(first: Used, second: Used)

  /** A file's record: its counts, its sweeps by key ('1_Forward', ...)
      and the files it stands for. */
  datatype Device = Device(sweeps: Counts, data: Dict<string, Frame>, used: Used)

  type Folder = Dict<string, Device>

  // ---------------------------------------------------------------------
  // find_fuzzy_pair

  /** The direction a name suggests: Forward iff it contains 'fw' in any case. */
  function NamedDirection(name: string): Direction
  {
    if Contains(Lower(name), "fw") then Forward else Reverse
  }

  /** Entry `k` of the single-sweep files is a candidate partner for `name`. */
  predicate Eligible(name: string, singles: Dict<string, Direction>, k: nat)
    requires k < |singles|
  {
    singles[k].1 == Opposite(NamedDirection(name)) && singles[k].0 != name
  }

  /** `max(candidates, key=score)` over the first `n` entries: the first
      candidate with the highest score. */
  function BestIndex(name: string, singles: Dict<string, Direction>, ratio: (string, string) -> int, n: nat): (r: Option<nat>)
    requires n <= |singles|
    ensures r.Some? ==> r.value < n && Eligible(name, singles, r.value)
  {
    if n == 0 then None
    else
      var prev := BestIndex(name, singles, ratio, n - 1);
      if !Eligible(name, singles, n - 1) then prev
      else if prev.None? || ratio(name, singles[n - 1].0) > ratio(name, singles[prev.value].0) then Some(n - 1)
      else prev
  }

  /** The chosen index scores at least as high as every candidate and
      strictly higher than every earlier one; none is chosen only when there
      is no candidate. */
  lemma {:induction false} BestIndexIsBest(name: string, singles: Dict<string, Direction>, ratio: (string, string) -> int, n: nat)
    requires n <= |singles|
    ensures var r := BestIndex(name, singles, ratio, n);
      r.Some? ==> forall j :: 0 <= j < n && Eligible(name, singles, j) ==>
        ratio(name, singles[j].0) <= ratio(name, singles[r.value].0)
    ensures var r := BestIndex(name, singles, ratio, n);
      r.Some? ==> forall j :: 0 <= j < r.value && Eligible(name, singles, j) ==>
        ratio(name, singles[j].0) < ratio(name, singles[r.value].0)
    ensures BestIndex(name, singles, ratio, n).None? ==> forall j :: 0 <= j < n ==> !Eligible(name, singles, j)
  {
    if n > 0 {
      BestIndexIsBest(name, singles, ratio, n - 1);
    }
  }

  /** `find_fuzzy_pair(filename, single_sweep_files)`. */
  function FindFuzzyPair(name: string, singles: Dict<string, Direction>, ratio: (string, string) -> int): Option<string>
  {
    match BestIndex(name, singles, ratio, |singles|)
    case None => None
    case Some(k) => if ratio(name, singles[k].0) > 80 then Some(singles[k].0) else None
  }

  /** The match is a candidate of the opposite direction scoring above 80,
      the first with the highest score; there is none exactly when every
      candidate scores 80 or less. */
  lemma FuzzyPairIsBest(name: string, singles: Dict<string, Direction>, ratio: (string, string) -> int)
    ensures var r := FindFuzzyPair(name, singles, ratio);
      r.Some? ==> exists k :: (0 <= k < |singles| && singles[k].0 == r.value && Eligible(name, singles, k)
        && ratio(name, r.value) > 80
        && (forall j :: 0 <= j < |singles| && Eligible(name, singles, j) ==> ratio(name, singles[j].0) <= ratio(name, r.value))
        && forall j :: 0 <= j < k && Eligible(name, singles, j) ==> ratio(name, singles[j].0) < ratio(name, r.value))
    ensures FindFuzzyPair(name, singles, ratio).None? <==>
      forall j :: 0 <= j < |singles| && Eligible(name, singles, j) ==> ratio(name, singles[j].0) <= 80
  {
    BestIndexIsBest(name, singles, ratio, |singles|);
  }

  // ---------------------------------------------------------------------
  // adjust_filename, adjust_keys

  /** `adjust_filename(filename, matched_file)`: the longest common prefix of
      the two extension-less names followed by their longest common suffix. */
  function AdjustFilename(name: string, matched: string): string
  {
    var a, b := Stem(name), Stem(matched);
    CommonPrefix(a, b) + CommonSuffix(a, b)
  }

  /** `p` is a common prefix and `s` a common suffix of `a` and `b`, and
      neither can be extended by one more character. */
  predicate MaximalParts(a: string, b: string, p: string, s: string)
  {
    StartsWith(a, p) && StartsWith(b, p) && (|p| < |a| && |p| < |b| ==> a[|p|] != b[|p|])
    && EndsWith(a, s) && EndsWith(b, s) && (|s| < |a| && |s| < |b| ==> a[|a| - |s| - 1] != b[|b| - |s| - 1])
  }

  /** The adjusted name is a common prefix of the two stems that cannot be
      extended, followed by a common suffix that cannot be extended. */
  lemma AdjustFilenameParts(name: string, matched: string)
    ensures exists p, s :: AdjustFilename(name, matched) == p + s && MaximalParts(Stem(name), Stem(matched), p, s)
  {
    var a, b := Stem(name), Stem(matched);
    var p, s := CommonPrefix(a, b), CommonSuffix(a, b);
    assert MaximalParts(a, b, p, s);
    assert AdjustFilename(name, matched) == p + s;
  }

  /** The prefix and the suffix may overlap: two files with the same stem
      give that stem twice. */
  lemma AdjustFilenameSameStem(name: string, matched: string)
    requires Stem(name) == Stem(matched)
    ensures AdjustFilename(name, matched) == Stem(name) + Stem(name)
  {
    var a := Stem(name);
    assert CommonPrefix(a, a) == a;
    assert CommonSuffix(a, a) == a;
  }

  /** The device keys of one folder without their extensions; a later key
      with the same stem replaces the earlier entry's value. */
  function StemKeys(folder: Folder): (r: Folder)
    ensures Valid(r)
  {
    PutAll(seq(|folder|, j requires 0 <= j < |folder| => (Stem(folder[j].0), folder[j].1)))
  }

  /** A stem is a key of the adjusted folder iff some key has that stem, and
      it holds the value of the last such key. */
  lemma StemKeysLastWins(folder: Folder, key: string)
    ensures Has(StemKeys(folder), key) <==> exists j :: 0 <= j < |folder| && Stem(folder[j].0) == key
    ensures Has(StemKeys(folder), key) ==> exists j :: (0 <= j < |folder| && Stem(folder[j].0) == key
      && Get(StemKeys(folder), key) == folder[j].1
      && forall j' :: j < j' < |folder| ==> Stem(folder[j'].0) != key)
  {
    var entries := seq(|folder|, j requires 0 <= j < |folder| => (Stem(folder[j].0), folder[j].1));
    PutAllLastWins(entries, key);
    assert forall j :: 0 <= j < |folder| ==> entries[j] == (Stem(folder[j].0), folder[j].1);
    if exists j :: 0 <= j < |folder| && Stem(folder[j].0) == key {
      var j :| 0 <= j < |folder| && Stem(folder[j].0) == key;
      assert entries[j].0 == key;
    }
    if Has(StemKeys(folder), key) {
      var j :| 0 <= j < |entries| && entries[j].0 == key && Lookup(PutAll(entries), key) == Some(entries[j].1)
        && forall j' :: j < j' < |entries| ==> entries[j'].0 != key;
      assert Stem(folder[j].0) == key && Get(StemKeys(folder), key) == folder[j].1;
    }
  }

  /** `adjust_keys(data_dict)`: folder names stay, device keys lose their
      extensions. */
  function AdjustKeys(data: Dict<string, Folder>): (r: Dict<string, Folder>)
    ensures Keys(r) == Keys(data)
    ensures forall k :: 0 <= k < |r| ==> r[k].1 == StemKeys(data[k].1)
  {
    seq(|data|, k requires 0 <= k < |data| => (data[k].0, StemKeys(data[k].1)))
  }

  // ---------------------------------------------------------------------
  // combine_data, combine_sweeps

  /** One pass of the merge loop: a sweep key data1 lacks is added; a
      colliding key goes to '1' when it names a Forward sweep ('Fw'), to '2'
      when it names a Reverse one ('Rv'), and is dropped otherwise. */
  function MergeSweep(acc: Dict<string, Frame>, key: string, f: Frame): Dict<string, Frame>
  {
    match MergeTarget(acc, key)
    case None => acc
    case Some(target) => Put(acc, target, f)
  }

  /** The key a merged sweep is stored under, if it is stored at all. */
  function MergeTarget(acc: Dict<string, Frame>, key: string): (r: Option<string>)
    ensures r.Some? ==> r.value == key || r.value == "1" || r.value == "2"
  {
    if !Has(acc, key) then Some(key)
    else if Contains(key, "Fw") then Some("1")
    else if Contains(key, "Rv") then Some("2")
    else None
  }

  /** data1's sweeps once the first `n` sweeps of data2 are merged in. */
  function Merged(acc: Dict<string, Frame>, entries: Dict<string, Frame>, n: nat): Dict<string, Frame>
    requires n <= |entries|
  {
    if n == 0 then acc else MergeSweep(Merged(acc, entries, n - 1), entries[n - 1].0, entries[n - 1].1)
  }

  /** One merge pass leaves every key but the one it merges, '1' and '2'. */
  lemma MergeSweepLookup(acc: Dict<string, Frame>, key: string, f: Frame, k: string)
    requires Has(acc, k) && k != "1" && k != "2"
    ensures Lookup(MergeSweep(acc, key, f), k) == Lookup(acc, k)
  {
    var target := MergeTarget(acc, key);
    if target.Some? {
      PutLookup(acc, target.value, f, k);
    }
  }

  /** data1's own sweeps keep their frames, except under the keys '1' and '2'. */
  lemma {:induction false} MergeKeepsOwnSweeps(acc: Dict<string, Frame>, entries: Dict<string, Frame>, n: nat, k: string)
    requires n <= |entries| && Has(acc, k) && k != "1" && k != "2"
    ensures Lookup(Merged(acc, entries, n), k) == Lookup(acc, k)
  {
    if n > 0 {
      MergeKeepsOwnSweeps(acc, entries, n - 1, k);
      MergeSweepLookup(Merged(acc, entries, n - 1), entries[n - 1].0, entries[n - 1].1, k);
    }
  }

  /** No sweep key of data1 is lost and the keys keep their order. */
  lemma {:induction false} MergeKeepsKeys(acc: Dict<string, Frame>, entries: Dict<string, Frame>, n: nat)
    requires n <= |entries|
    ensures |acc| <= |Merged(acc, entries, n)| && Keys(Merged(acc, entries, n))[..|acc|] == Keys(acc)
  {
    if n > 0 {
      MergeKeepsKeys(acc, entries, n - 1);
      var prev := Merged(acc, entries, n - 1);
      var target := MergeTarget(prev, entries[n - 1].0);
      if target.Some? {
        var next := Put(prev, target.value, entries[n - 1].1);
        assert Merged(acc, entries, n) == next;
        PutKeys(prev, target.value, entries[n - 1].1);
        assert Keys(next)[..|prev|] == Keys(prev);
        assert Keys(next)[..|acc|] == Keys(prev)[..|acc|];
      } else {
        assert Merged(acc, entries, n) == prev;
      }
    }
  }

  /** With no colliding key the merge appends data2's sweeps in order. */
  lemma {:induction false} MergeDisjoint(acc: Dict<string, Frame>, entries: Dict<string, Frame>, n: nat)
    requires n <= |entries| && Valid(entries)
    requires forall j :: 0 <= j < |entries| ==> !Has(acc, entries[j].0)
    ensures Merged(acc, entries, n) == acc + entries[..n]
  {
    if n > 0 {
      MergeDisjoint(acc, entries, n - 1);
      var key, f := entries[n - 1].0, entries[n - 1].1;
      KeysConcat(acc, entries[..n - 1]);
      LastKeyFresh(entries, n);
      PutNew(acc + entries[..n - 1], key, f);
      PrefixSnoc(entries, n);
    }
  }

  /** The merge of distinct-keyed sweeps has distinct keys. */
  lemma {:induction false} MergedValid(acc: Dict<string, Frame>, entries: Dict<string, Frame>, n: nat)
    requires n <= |entries| && Valid(acc)
    ensures Valid(Merged(acc, entries, n))
  {
    if n > 0 {
      MergedValid(acc, entries, n - 1);
      var prev := Merged(acc, entries, n - 1);
      var target := MergeTarget(prev, entries[n - 1].0);
      if target.Some? {
        PutValid(prev, target.value, entries[n - 1].1);
      }
    }
  }

  /** `combine_data(data1, data2)`: the combined record, and data1 as the
      shallow copy leaves it (it shares the counts and the sweeps, and keeps
      its own 'Used files'). */
  function Combine(d1: Device, d2: Device): (Device, Device)
  {
    var sweeps := Counts(d1.sweeps.total + d2.sweeps.total, d1.sweeps.forward + d2.sweeps.forward,
      d1.sweeps.reverse + d2.sweeps.reverse);
    var data := Merged(d1.data, d2.data, |d2.data|);
    (Device(sweeps, data, Both(d1.used, d2.used)), Device(sweeps, data, d1.used))
  }

  method CombineData(d1: Device, d2: Device) returns (combined: Device, shared: Device)
    ensures combined.sweeps.total == d1.sweeps.total + d2.sweeps.total
    ensures combined.sweeps.forward == d1.sweeps.forward + d2.sweeps.forward
    ensures combined.sweeps.reverse == d1.sweeps.reverse + d2.sweeps.reverse
    ensures combined.data == Merged(d1.data, d2.data, |d2.data|)
    ensures combined.used == Both(d1.used, d2.used)
    ensures shared == combined.(used := d1.used)
    ensures (combined, shared) == Combine(d1, d2)
  {
    var sweeps := Counts(d1.sweeps.total, d1.sweeps.forward, d1.sweeps.reverse);
    sweeps := sweeps.(total := sweeps.total + d2.sweeps.total);
    sweeps := sweeps.(forward := sweeps.forward + d2.sweeps.forward);
    sweeps := sweeps.(reverse := sweeps.reverse + d2.sweeps.reverse);
    var data := d1.data;
    var i := 0;
    while i < |d2.data|
      invariant 0 <= i <= |d2.data|
      invariant data == Merged(d1.data, d2.data, i)
    {
      var key, f := d2.data[i].0, d2.data[i].1;
      if !Has(data, key) {
        data := Put(data, key, f);
      } else if Contains(key, "Fw") {
        data := Put(data, "1", f);
      } else if Contains(key, "Rv") {
        data := Put(data, "2", f);
      }
      i := i + 1;
    }
    combined := Device(sweeps, data, Both(d1.used, d2.used));
    shared := Device(sweeps, data, d1.used);
  }

  /** `combine_sweeps(value_data)`: over distinct sweep keys the averaging
      branch is never taken, so the record comes back unchanged. */
  method CombineSweeps(d: Device) returns (r: Device)
    requires Valid(d.data)
    ensures r == d
  {
    var combined: Dict<string, Frame> := [];
    var i := 0;
    while i < |d.data|
      invariant 0 <= i <= |d.data|
      invariant combined == d.data[..i]
    {
      var sweep, f := d.data[i].0, d.data[i].1;
      assert !Has(combined, sweep) by {
        forall j | 0 <= j < i ensures Keys(combined)[j] != sweep {
          assert Keys(combined)[j] == Keys(d.data)[j];
        }
      }
      if !Has(combined, sweep) {
        PutNew(combined, sweep, f);
        combined := Put(combined, sweep, f);
      } else {
        assert false;
      }
      assert d.data[..i + 1] == d.data[..i] + [(sweep, f)];
      i := i + 1;
    }
    assert d.data[..|d.data|] == d.data;
    r := d.(data := combined);
  }

  // ---------------------------------------------------------------------
  // detect_and_filter

  /** Every record's sweeps have distinct keys, as Python dicts do. */
  predicate SweepsValid(folder: Folder)
  {
    forall e :: e in folder ==> Valid(e.1.data)
  }

  predicate TwoSweeps(d: Device)
  {
    d.sweeps.forward + d.sweeps.reverse == 2 && d.sweeps.forward == d.sweeps.reverse
  }

  predicate OneSweep(d: Device)
  {
    d.sweeps.forward + d.sweeps.reverse == 1
  }

  function SweepDirection(d: Device): Direction
  {
    if d.sweeps.forward == 1 then Forward else Reverse
  }

  /** The state of one folder while it is processed: the folder's result,
      the single-sweep files, the folder data itself (mutated in place), the
      processed names and the names reported as unmatched. */
  datatype Run = Run(result: Folder, singles: Dict<string, Direction>, folder: Folder,
                     processed: set<string>, unmatched: seq<string>)

  /** First loop, one file: a Forward+Reverse file enters the result under
      its own name (the record is shared, so the folder sees the stamp); a
      single-sweep file is remembered with its direction. */
  function SplitStep(s: Run, name: string, d: Device): Run
  {
    if TwoSweeps(d) then
      var stamped := d.(used := File(name));
      s.(result := Put(s.result, name, stamped), folder := Put(s.folder, name, stamped))
    else if OneSweep(d) then s.(singles := Put(s.singles, name, SweepDirection(d)))
    else s
  }

  function Split(folder: Folder, n: nat): Run
    requires n <= |folder|
  {
    if n == 0 then Run([], [], folder, {}, [])
    else SplitStep(Split(folder, n - 1), folder[n - 1].0, folder[n - 1].1)
  }

  /** Second loop, one single-sweep file. */
  function PairStep(s: Run, name: string, direction: Direction, ratio: (string, string) -> int): (r: Result<Run>)
    ensures r.Ok? ==> r.value.singles == s.singles
  {
    if name in s.processed then Ok(s)
    else
      var matched := FindFuzzyPair(name, s.singles, ratio);
      if matched.Some? && matched.value != "" && Lookup(s.singles, matched.value) != Some(direction) then
        var m := matched.value;
        if !Has(s.folder, name) then Err(KeyError(name))
        else if !Has(s.folder, m) then Err(KeyError(m))
        else
          var (combined, shared) := Combine(Get(s.folder, name), Get(s.folder, m));
          Ok(s.(result := Put(s.result, AdjustFilename(name, m), combined),
                folder := Put(s.folder, name, shared),
                processed := s.processed + {name, m}))
      else
        Ok(s.(folder := Remove(s.folder, name), unmatched := s.unmatched + [name]))
  }

  function Paired(s: Run, n: nat, ratio: (string, string) -> int): (r: Result<Run>)
    requires n <= |s.singles|
    ensures r.Ok? ==> r.value.singles == s.singles
  {
    if n == 0 then Ok(s)
    else match Paired(s, n - 1, ratio)
      case Err(e) => Err(e)
      case Ok(t) => PairStep(t, s.singles[n - 1].0, s.singles[n - 1].1, ratio)
  }

  /** A failed prefix of the second loop is the failure of one more file. */
  lemma PairedAfterFailure(s: Run, m: nat, ratio: (string, string) -> int)
    requires 0 < m <= |s.singles| && Paired(s, m - 1, ratio).Err?
    ensures Paired(s, m, ratio) == Paired(s, m - 1, ratio)
  {
  }

  lemma {:induction false} PairedStaysFailed(s: Run, n: nat, m: nat, ratio: (string, string) -> int)
    requires n <= m <= |s.singles| && Paired(s, n, ratio).Err?
    ensures Paired(s, m, ratio) == Paired(s, n, ratio)
    decreases m - n
  {
    if n < m {
      PairedStaysFailed(s, n, m - 1, ratio);
      PairedAfterFailure(s, m, ratio);
    }
  }

  /** Third loop, one file: a file with several sweeps of a direction is
      kept, stamped with its own name. */
  function AverageStep(s: Run, name: string, d: Device): Run
  {
    if d.sweeps.forward > 1 || d.sweeps.reverse > 1 then
      var averaged := d.(used := File(name));
      s.(result := Put(s.result, name, averaged), folder := Put(s.folder, name, averaged))
    else s
  }

  function Averaged(s: Run, entries: Folder, n: nat): Run
    requires n <= |entries|
  {
    if n == 0 then s else AverageStep(Averaged(s, entries, n - 1), entries[n - 1].0, entries[n - 1].1)
  }

  /** The three loops over one folder. */
  function FilterFolder(folder: Folder, ratio: (string, string) -> int): Result<Run>
  {
    var split := Split(folder, |folder|);
    var paired :- Paired(split, |split.singles|, ratio);
    Ok(Averaged(paired, paired.folder, |paired.folder|))
  }

  /** The first `n` folders: the result so far, the folders as they are left
      and the unmatched files reported, as (folder, file). */
  function FilterAll(data: Dict<string, Folder>, n: nat, ratio: (string, string) -> int)
    : Result<(Dict<string, Folder>, Dict<string, Folder>, seq<(string, string)>)>
    requires n <= |data|
  {
    if n == 0 then Ok(([], [], []))
    else match FilterAll(data, n - 1, ratio)
      case Err(e) => Err(e)
      case Ok(prev) => FilterNext(prev, data[n - 1].0, data[n - 1].1, ratio)
  }

  /** The outer loop's body for one folder. */
  function FilterNext(prev: (Dict<string, Folder>, Dict<string, Folder>, seq<(string, string)>),
                      name: string, folder: Folder, ratio: (string, string) -> int)
    : (r: Result<(Dict<string, Folder>, Dict<string, Folder>, seq<(string, string)>)>)
    ensures r.Ok? ==> |r.value.1| == |prev.1| + 1
  {
    var run :- FilterFolder(folder, ratio);
    Ok((Put(prev.0, name, run.result), prev.1 + [(name, run.folder)], prev.2 + Reported(name, run.unmatched)))
  }

  /** One warning per unmatched file of a folder. */
  function Reported(folderName: string, names: seq<string>): (r: seq<(string, string)>)
    ensures |r| == |names| && forall j :: 0 <= j < |names| ==> r[j] == (folderName, names[j])
  {
    seq(|names|, j requires 0 <= j < |names| => (folderName, names[j]))
  }

  /** One more folder after a successful prefix. */
  lemma FilterAllNext(data: Dict<string, Folder>, n: nat, ratio: (string, string) -> int,
                      prev: (Dict<string, Folder>, Dict<string, Folder>, seq<(string, string)>))
    requires n < |data| && FilterAll(data, n, ratio) == Ok(prev)
    ensures FilterAll(data, n + 1, ratio) == FilterNext(prev, data[n].0, data[n].1, ratio)
  {
  }

  lemma {:induction false} FilterAllStaysFailed(data: Dict<string, Folder>, n: nat, m: nat, ratio: (string, string) -> int)
    requires n <= m <= |data| && FilterAll(data, n, ratio).Err?
    ensures FilterAll(data, m, ratio) == FilterAll(data, n, ratio)
    decreases m - n
  {
    if n < m {
      FilterAllStaysFailed(data, n, m - 1, ratio);
      var prev := FilterAll(data, m - 1, ratio);
      assert prev.Err?;
      assert FilterAll(data, m, ratio) == Err(prev.error);
    }
  }

  method SplitBySweeps(folder: Folder) returns (s: Run)
    requires SweepsValid(folder)
    ensures s == Split(folder, |folder|) && SweepsValid(s.folder)
  {
    var result: Folder := [];
    var singles: Dict<string, Direction> := [];
    var current := folder;
    for i := 0 to |folder|
      invariant Split(folder, i) == Run(result, singles, current, {}, [])
      invariant SweepsValid(current)
    {
      var name, d := folder[i].0, folder[i].1;
      SplitStepValid(Split(folder, i), folder, i);
      var fw, rv := d.sweeps.forward, d.sweeps.reverse;
      if fw + rv == 2 && fw == rv {
        result := Put(result, name, d.(used := File(name)));
        current := Put(current, name, d.(used := File(name)));
      } else if fw + rv == 1 {
        var direction := if fw == 1 then Forward else Reverse;
        singles := Put(singles, name, direction);
      }
      assert Split(folder, i + 1) == Run(result, singles, current, {}, []);
    }
    s := Run(result, singles, current, {}, []);
  }

  /** One more file of the first loop keeps every folder entry's sweeps
      distinct. */
  lemma SplitStepValid(s: Run, folder: Folder, i: nat)
    requires i < |folder| && SweepsValid(folder) && SweepsValid(s.folder)
    ensures SweepsValid(SplitStep(s, folder[i].0, folder[i].1).folder)
  {
    var name, d := folder[i].0, folder[i].1;
    assert folder[i] in folder;
    if TwoSweeps(d) {
      PutEntries(s.folder, name, d.(used := File(name)));
    }
  }

  /** The second loop's body for one single-sweep file. */
  method PairOne(s: Run, name: string, direction: Direction, ratio: (string, string) -> int) returns (r: Result<Run>)
    ensures r == PairStep(s, name, direction, ratio)
  {
    if name in s.processed {
      return Ok(s);
    }
    var matched := FindFuzzyPair(name, s.singles, ratio);
    if matched.Some? && matched.value != "" && Lookup(s.singles, matched.value) != Some(direction) {
      var m := matched.value;
      if !Has(s.folder, name) {
        return Err(KeyError(name));
      }
      if !Has(s.folder, m) {
        return Err(KeyError(m));
      }
      var d1, d2 := Get(s.folder, name), Get(s.folder, m);
      var combined, shared := CombineData(d1, d2);
      var processed := s.processed + {name};
      processed := processed + {m};
      assert processed == s.processed + {name, m};
      r := Ok(s.(result := Put(s.result, AdjustFilename(name, m), combined),
                 folder := Put(s.folder, name, shared), processed := processed));
    } else {
      r := Ok(s.(folder := Remove(s.folder, name), unmatched := s.unmatched + [name]));
    }
  }

  method PairSingles(s: Run, ratio: (string, string) -> int) returns (r: Result<Run>)
    ensures r == Paired(s, |s.singles|, ratio)
  {
    var t := s;
    var i := 0;
    while i < |s.singles|
      invariant 0 <= i <= |s.singles|
      invariant Paired(s, i, ratio) == Ok(t)
    {
      var step := PairOne(t, s.singles[i].0, s.singles[i].1, ratio);
      if step.Err? {
        PairedStaysFailed(s, i + 1, |s.singles|, ratio);
        return step;
      }
      t := step.value;
      i := i + 1;
    }
    r := Ok(t);
  }

  /** A pairing step keeps every record's sweeps distinct-keyed. */
  lemma PairStepSweepsValid(s: Run, name: string, direction: Direction, ratio: (string, string) -> int, t: Run)
    requires SweepsValid(s.folder) && PairStep(s, name, direction, ratio) == Ok(t)
    ensures SweepsValid(t.folder)
  {
    if name !in s.processed {
      var matched := FindFuzzyPair(name, s.singles, ratio);
      if matched.Some? && matched.value != "" && Lookup(s.singles, matched.value) != Some(direction) {
        var m := matched.value;
        var d1, d2 := Get(s.folder, name), Get(s.folder, m);
        LookupIn(s.folder, name);
        MergedValid(d1.data, d2.data, |d2.data|);
        PutEntries(s.folder, name, Combine(d1, d2).1);
      } else {
        RemoveEntries(s.folder, name);
      }
    }
  }

  lemma {:induction false} PairedSweepsValid(s: Run, n: nat, ratio: (string, string) -> int, t: Run)
    requires n <= |s.singles| && SweepsValid(s.folder) && Paired(s, n, ratio) == Ok(t)
    ensures SweepsValid(t.folder)
    decreases n
  {
    if n > 0 {
      var prev := Paired(s, n - 1, ratio);
      assert prev.Ok?;
      PairedSweepsValid(s, n - 1, ratio, prev.value);
      PairStepSweepsValid(prev.value, s.singles[n - 1].0, s.singles[n - 1].1, ratio, t);
    }
  }

  method AverageMultiSweeps(s: Run) returns (t: Run)
    requires SweepsValid(s.folder)
    ensures t == Averaged(s, s.folder, |s.folder|)
  {
    var entries := s.folder;
    t := s;
    var i := 0;
    while i < |entries|
      invariant 0 <= i <= |entries|
      invariant t == Averaged(s, entries, i)
    {
      var name, d := entries[i].0, entries[i].1;
      if d.sweeps.forward > 1 || d.sweeps.reverse > 1 {
        assert d == entries[i].1 && entries[i] in entries;
        var averaged := CombineSweeps(d);
        t := t.(result := Put(t.result, name, averaged.(used := File(name))),
                folder := Put(t.folder, name, averaged.(used := File(name))));
      }
      i := i + 1;
    }
  }

  method FilterFolderRun(folder: Folder, ratio: (string, string) -> int) returns (r: Result<Run>)
    requires SweepsValid(folder)
    ensures r == FilterFolder(folder, ratio)
  {
    var split := SplitBySweeps(folder);
    var paired := PairSingles(split, ratio);
    if paired.Err? {
      return Err(paired.error);
    }
    PairedSweepsValid(split, |split.singles|, ratio, paired.value);
    var averaged := AverageMultiSweeps(paired.value);
    r := Ok(averaged);
  }

  /** The outer loop's body: the folder's result replaces the empty map
      put first under its name. */
  method FilterOne(prev: (Dict<string, Folder>, Dict<string, Folder>, seq<(string, string)>),
                   name: string, folder: Folder, ratio: (string, string) -> int)
    returns (r: Result<(Dict<string, Folder>, Dict<string, Folder>, seq<(string, string)>)>)
    requires SweepsValid(folder)
    ensures r == FilterNext(prev, name, folder, ratio)
  {
    var result := Put(prev.0, name, []);
    var run := FilterFolderRun(folder, ratio);
    if run.Err? {
      return Err(run.error);
    }
    PutPut(prev.0, name, [], run.value.result);
    result := Put(result, name, run.value.result);
    r := Ok((result, prev.1 + [(name, run.value.folder)], prev.2 + Reported(name, run.value.unmatched)));
  }

  /** `DeviceDetector`: holds the folders of read files. */
  class DeviceDetector {
    var data: Dict<string, Folder>

    constructor(data: Dict<string, Folder>)
      ensures this.data == data
    {
      this.data := data;
    }

    /** `detect_and_filter()`: the folders' results with extension-less
        keys, and the unmatched files reported; each folder of `data` is left
        as the loops mutate it. */
    method DetectAndFilter(ratio: (string, string) -> int) returns (r: Result<(Dict<string, Folder>, seq<(string, string)>)>)
      requires forall e :: e in data ==> SweepsValid(e.1)
      modifies this
      ensures FilterAll(old(data), |old(data)|, ratio).Err? ==> r == Err(FilterAll(old(data), |old(data)|, ratio).error)
      ensures FilterAll(old(data), |old(data)|, ratio).Ok? ==>
        var out := FilterAll(old(data), |old(data)|, ratio).value;
        r == Ok((AdjustKeys(out.0), out.2)) && data == out.1
    {
      var original := data;
      var result: Dict<string, Folder> := [];
      var warnings: seq<(string, string)> := [];
      var i := 0;
      while i < |original|
        invariant 0 <= i <= |original| && |data| == |original|
        invariant forall j :: i <= j < |data| ==> data[j] == original[j]
        invariant FilterAll(original, i, ratio) == Ok((result, data[..i], warnings))
      {
        var name, folder := data[i].0, data[i].1;
        assert original[i] in original;
        var next := FilterOne((result, data[..i], warnings), name, folder, ratio);
        FilterAllNext(original, i, ratio, (result, data[..i], warnings));
        if next.Err? {
          FilterAllStaysFailed(original, i + 1, |original|, ratio);
          return Err(next.error);
        }
        result, warnings := next.value.0, next.value.2;
        var rest := data[i + 1..];
        data := next.value.1 + rest;
        ConcatPrefix(next.value.1, rest);
        i := i + 1;
      }
      PrefixAll(data);
      r := Ok((AdjustKeys(result), warnings));
    }
  }

  // ---------------------------------------------------------------------
  // Properties of detect_and_filter

  /** What the first loop makes of a file: accepted as a device ... */
  function Accepted(d: Option<Device>, name: string): Option<Device>
  {
    match d
    case None => None
    case Some(x) => if TwoSweeps(x) then Some(x.(used := File(name))) else None
  }

  /** ... or kept as a single-sweep candidate with its direction. */
  function Single(d: Option<Device>): Option<Direction>
  {
    match d
    case None => None
    case Some(x) => if OneSweep(x) then Some(SweepDirection(x)) else None
  }

  /** After the first loop over the first `n` files, a file is in the result
      exactly when it has one Forward and one Reverse sweep, stamped with its
      own name. */
  lemma {:induction false} SplitSortsFiles(folder: Folder, n: nat, k: string)
    requires Valid(folder) && n <= |folder|
    ensures Lookup(Split(folder, n).result, k) == Accepted(Lookup(folder[..n], k), k)
  {
    if n > 0 {
      SplitSortsFiles(folder, n - 1, k);
      var prev := Split(folder, n - 1);
      var name, d := folder[n - 1].0, folder[n - 1].1;
      LookupPrefix(folder, n, k);
      PutLookup(prev.result, name, d.(used := File(name)), k);
    }
  }

  /** After the first loop over the first `n` files, a file is a
      single-sweep candidate, with its direction, exactly when it has one
      sweep. */
  lemma {:induction false} SplitCollectsSingles(folder: Folder, n: nat, k: string)
    requires Valid(folder) && n <= |folder|
    ensures Lookup(Split(folder, n).singles, k) == Single(Lookup(folder[..n], k))
  {
    if n > 0 {
      SplitCollectsSingles(folder, n - 1, k);
      var prev := Split(folder, n - 1);
      var name, d := folder[n - 1].0, folder[n - 1].1;
      LookupPrefix(folder, n, k);
      PutLookup(prev.singles, name, SweepDirection(d), k);
    }
  }

  /** Pairing fails, with KeyError, exactly when the chosen partner was
      popped before; a popped file stays a candidate, so this happens. */
  lemma PickingPoppedFails(s: Run, name: string, direction: Direction, ratio: (string, string) -> int, m: string)
    requires name !in s.processed && Has(s.folder, name) && !Has(s.folder, m)
    requires FindFuzzyPair(name, s.singles, ratio) == Some(m) && m != "" && Lookup(s.singles, m) != Some(direction)
    ensures PairStep(s, name, direction, ratio) == Err(KeyError(m))
  {
  }

  /** A successful pairing stores the combined record under the adjusted
      name with both files as 'Used files', and marks both as processed. */
  lemma PairingStoresCombined(s: Run, name: string, direction: Direction, ratio: (string, string) -> int, m: string)
    requires name !in s.processed && Has(s.folder, name) && Has(s.folder, m)
    requires FindFuzzyPair(name, s.singles, ratio) == Some(m) && m != "" && Lookup(s.singles, m) != Some(direction)
    ensures PairStep(s, name, direction, ratio).Ok?
    ensures var t := PairStep(s, name, direction, ratio).value;
      Lookup(t.result, AdjustFilename(name, m)) == Some(Combine(Get(s.folder, name), Get(s.folder, m)).0)
      && Get(t.result, AdjustFilename(name, m)).used == Both(Get(s.folder, name).used, Get(s.folder, m).used)
      && name in t.processed && m in t.processed
  {
    var t := PairStep(s, name, direction, ratio).value;
    PutLookup(s.result, AdjustFilename(name, m), Combine(Get(s.folder, name), Get(s.folder, m)).0, AdjustFilename(name, m));
  }

  /** One pairing step leaves every other file's record alone ... */
  lemma PairStepKeepsOthers(t: Run, name: string, direction: Direction, ratio: (string, string) -> int, u: string)
    requires PairStep(t, name, direction, ratio).Ok? && u != name
    ensures Lookup(PairStep(t, name, direction, ratio).value.folder, u) == Lookup(t.folder, u)
  {
    var t' := PairStep(t, name, direction, ratio).value;
    if t'.unmatched != t.unmatched {
      RemoveLookup(t.folder, name, u);
    } else if name !in t.processed {
      var m := FindFuzzyPair(name, t.singles, ratio);
      if m.Some? && m.value != "" && Lookup(t.singles, m.value) != Some(direction) {
        PutLookup(t.folder, name, Combine(Get(t.folder, name), Get(t.folder, m.value)).1, u);
      }
    }
  }

  /** ... and reports the file only when it pops it. */
  lemma PairStepReports(t: Run, name: string, direction: Direction, ratio: (string, string) -> int)
    requires PairStep(t, name, direction, ratio).Ok?
    ensures var t' := PairStep(t, name, direction, ratio).value;
      t'.unmatched == t.unmatched || (t'.unmatched == t.unmatched + [name] && !Has(t'.folder, name))
  {
    var t' := PairStep(t, name, direction, ratio).value;
    if t'.unmatched != t.unmatched {
      RemoveLookup(t.folder, name, name);
    }
  }

  /** The files reported by the first `n` steps are single-sweep candidates
      visited by those steps. */
  lemma {:induction false} PairedReports(s: Run, n: nat, ratio: (string, string) -> int, t: Run)
    requires n <= |s.singles| && s.unmatched == [] && Paired(s, n, ratio) == Ok(t)
    ensures forall u :: u in t.unmatched ==> u in Keys(s.singles)[..n]
    decreases n
  {
    if n > 0 {
      var prev := Paired(s, n - 1, ratio);
      assert prev.Ok?;
      PairedReports(s, n - 1, ratio, prev.value);
      var name, direction := s.singles[n - 1].0, s.singles[n - 1].1;
      assert Ok(t) == PairStep(prev.value, name, direction, ratio);
      PrefixSnoc(Keys(s.singles), n);
      PairStepReports(prev.value, name, direction, ratio);
    }
  }

  /** No file reported as unmatched is left in the folder data, so the
      third loop never sees it. */
  lemma {:induction false} PairedPopsUnmatched(s: Run, n: nat, ratio: (string, string) -> int, t: Run)
    requires n <= |s.singles| && Valid(s.singles) && s.unmatched == [] && Paired(s, n, ratio) == Ok(t)
    ensures forall u :: u in t.unmatched ==> !Has(t.folder, u)
    decreases n
  {
    if n > 0 {
      var prev := Paired(s, n - 1, ratio);
      assert prev.Ok?;
      PairedPopsUnmatched(s, n - 1, ratio, prev.value);
      PairedReports(s, n - 1, ratio, prev.value);
      var name, direction := s.singles[n - 1].0, s.singles[n - 1].1;
      assert Ok(t) == PairStep(prev.value, name, direction, ratio);
      var before := Keys(s.singles)[..n - 1];
      assert name !in before by {
        forall i | 0 <= i < n - 1 ensures before[i] != name {
          assert before[i] == Keys(s.singles)[i];
        }
      }
      PairStepReports(prev.value, name, direction, ratio);
      forall u | u in t.unmatched ensures !Has(t.folder, u) {
        if u != name {
          PairStepKeepsOthers(prev.value, name, direction, ratio, u);
        }
      }
    }
  }

  /** A pairing step adds to the result only under the adjusted name of the
      file and a candidate partner. */
  lemma PairStepResult(t: Run, name: string, direction: Direction, ratio: (string, string) -> int, t': Run, k: string)
    requires PairStep(t, name, direction, ratio) == Ok(t') && Has(t'.result, k) && !Has(t.result, k)
    ensures exists m :: m in Keys(t.singles) && k == AdjustFilename(name, m)
  {
    var matched := FindFuzzyPair(name, t.singles, ratio);
    assert name !in t.processed;
    if matched.Some? && matched.value != "" && Lookup(t.singles, matched.value) != Some(direction) {
      var m := matched.value;
      var i := BestIndex(name, t.singles, ratio, |t.singles|).value;
      assert Keys(t.singles)[i] == m;
      PutLookup(t.result, AdjustFilename(name, m), Combine(Get(t.folder, name), Get(t.folder, m)).0, k);
    }
  }

  /** The pairing loop adds to the result only adjusted names of two
      single-sweep candidates. */
  lemma {:induction false} PairedResultKeys(s: Run, n: nat, ratio: (string, string) -> int, t: Run, k: string)
    requires n <= |s.singles| && Paired(s, n, ratio) == Ok(t) && Has(t.result, k) && !Has(s.result, k)
    ensures exists x, y :: x in Keys(s.singles) && y in Keys(s.singles) && k == AdjustFilename(x, y)
    decreases n
  {
    if n == 0 {
      assert false;
    } else {
      var prev := Paired(s, n - 1, ratio);
      assert prev.Ok?;
      if Has(prev.value.result, k) {
        PairedResultKeys(s, n - 1, ratio, prev.value, k);
      } else {
        PairedLastKey(s, n, ratio, prev.value, t, k);
      }
    }
  }

  /** The key the `n`-th pairing step adds is the adjusted name of that
      file and a candidate partner. */
  lemma PairedLastKey(s: Run, n: nat, ratio: (string, string) -> int, prev: Run, t: Run, k: string)
    requires 0 < n <= |s.singles| && prev.singles == s.singles
    requires PairStep(prev, s.singles[n - 1].0, s.singles[n - 1].1, ratio) == Ok(t)
    requires Has(t.result, k) && !Has(prev.result, k)
    ensures exists x, y :: x in Keys(s.singles) && y in Keys(s.singles) && k == AdjustFilename(x, y)
  {
    var name := s.singles[n - 1].0;
    PairStepResult(prev, name, s.singles[n - 1].1, ratio, t, k);
    assert Keys(s.singles)[n - 1] == name;
  }

  lemma {:induction false} SplitSinglesValid(folder: Folder, n: nat)
    requires n <= |folder|
    ensures Valid(Split(folder, n).singles) && Split(folder, n).unmatched == []
  {
    if n > 0 {
      SplitSinglesValid(folder, n - 1);
      var prev := Split(folder, n - 1);
      PutValid(prev.singles, folder[n - 1].0, SweepDirection(folder[n - 1].1));
    }
  }

  /** The third loop adds to the result only files of the folder data it
      walks, and reports nothing. */
  lemma {:induction false} AveragedResultKeys(s: Run, entries: Folder, n: nat, k: string)
    requires n <= |entries|
    ensures Averaged(s, entries, n).unmatched == s.unmatched
    ensures Has(Averaged(s, entries, n).result, k) ==> Has(s.result, k) || k in Keys(entries)
  {
    if n > 0 {
      AveragedResultKeys(s, entries, n - 1, k);
      var prev := Averaged(s, entries, n - 1);
      var name, d := entries[n - 1].0, entries[n - 1].1;
      PutLookup(prev.result, name, d.(used := File(name)), k);
      assert Keys(entries)[n - 1] == name;
    }
  }

  /** A file with several sweeps of a direction enters the result under its
      own name, unchanged apart from 'Used files'. */
  lemma {:induction false} AveragedKeepsMultiSweeps(s: Run, entries: Folder, n: nat, j: nat)
    requires Valid(entries) && j < n <= |entries|
    requires entries[j].1.sweeps.forward > 1 || entries[j].1.sweeps.reverse > 1
    ensures Lookup(Averaged(s, entries, n).result, entries[j].0) == Some(entries[j].1.(used := File(entries[j].0)))
  {
    var prev := Averaged(s, entries, n - 1);
    var name, d := entries[n - 1].0, entries[n - 1].1;
    if j < n - 1 {
      AveragedKeepsMultiSweeps(s, entries, n - 1, j);
      assert Keys(entries)[j] != Keys(entries)[n - 1];
    }
    PutLookup(prev.result, name, d.(used := File(name)), entries[j].0);
  }

  /** A single-sweep candidate is a file of the folder that the first loop
      did not put in the result. */
  lemma SingleIsFile(folder: Folder, x: string)
    requires Valid(folder) && x in Keys(Split(folder, |folder|).singles)
    ensures x in Keys(folder) && !Has(Split(folder, |folder|).result, x)
  {
    var split := Split(folder, |folder|);
    PrefixAll(folder);
    SplitCollectsSingles(folder, |folder|, x);
    assert Lookup(split.singles, x).Some?;
    var d := Lookup(folder, x);
    assert d.Some? && OneSweep(d.value);
    SplitSortsFiles(folder, |folder|, x);
    assert !TwoSweeps(d.value);
  }

  /** A file reported as unmatched never enters the folder's result, unless
      the adjusted name of some other pair happens to equal its name. */
  lemma UnmatchedNeverEnters(folder: Folder, ratio: (string, string) -> int, run: Run, u: string)
    requires Valid(folder) && FilterFolder(folder, ratio) == Ok(run) && u in run.unmatched
    requires forall x, y :: x in Keys(folder) && y in Keys(folder) ==> AdjustFilename(x, y) != u
    ensures !Has(run.result, u)
  {
    var split := Split(folder, |folder|);
    SplitSinglesValid(folder, |folder|);
    var paired := Paired(split, |split.singles|, ratio);
    assert paired.Ok?;
    var p := paired.value;
    assert run == Averaged(p, p.folder, |p.folder|);
    AveragedResultKeys(p, p.folder, |p.folder|, u);
    PairedReports(split, |split.singles|, ratio, p);
    PairedPopsUnmatched(split, |split.singles|, ratio, p);
    SingleIsFile(folder, u);
    if Has(p.result, u) {
      PairedResultKeys(split, |split.singles|, ratio, p, u);
      var x, y :| x in Keys(split.singles) && y in Keys(split.singles) && u == AdjustFilename(x, y);
      SingleIsFile(folder, x);
      SingleIsFile(folder, y);
      assert false;
    }
  }
}
