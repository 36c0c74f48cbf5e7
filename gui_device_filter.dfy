/** The older device matcher of GUI/Device_filter.py. It works on one flat
    map of files instead of folders. The fuzzy match ignores directions,
    pairs are named from the keys already in the result, and nothing is
    stamped with 'Used files'. The fuzzy score is a parameter. */
module GuiDeviceFilter {
  import opened Wrappers
  import opened Strs
  import opened Dicts
  import DF = DeviceFilter

  // ---------------------------------------------------------------------
  // find_fuzzy_pair

  /** Index of the first strictly best positive score among the first `n`
      other files: a candidate replaces the best only with a higher score,
      starting from score 0. */
  function BlindBestIndex(name: string, singles: Dict<string, DF.Direction>, ratio: (string, string) -> int, n: nat): (r: Option<nat>)
    requires n <= |singles|
    ensures r.Some? ==> r.value < n && singles[r.value].0 != name && ratio(name, singles[r.value].0) > 0
  {
    if n == 0 then None
    else
      var prev := BlindBestIndex(name, singles, ratio, n - 1);
      var other := singles[n - 1].0;
      if other == name then prev
      else if ratio(name, other) > (if prev.None? then 0 else ratio(name, singles[prev.value].0)) then Some(n - 1)
      else prev
  }

  /** The chosen index scores at least as high as every other file and
      strictly higher than every earlier one; none is chosen only when no
      other file scores above 0. */
  lemma {:induction false} BlindBestIndexIsBest(name: string, singles: Dict<string, DF.Direction>, ratio: (string, string) -> int, n: nat)
    requires n <= |singles|
    ensures var r := BlindBestIndex(name, singles, ratio, n);
      r.Some? ==> forall j :: 0 <= j < n && singles[j].0 != name ==> ratio(name, singles[j].0) <= ratio(name, singles[r.value].0)
    ensures var r := BlindBestIndex(name, singles, ratio, n);
      r.Some? ==> forall j :: 0 <= j < r.value && singles[j].0 != name ==> ratio(name, singles[j].0) < ratio(name, singles[r.value].0)
    ensures BlindBestIndex(name, singles, ratio, n).None? ==>
      forall j :: 0 <= j < n && singles[j].0 != name ==> ratio(name, singles[j].0) <= 0
  {
    if n > 0 {
      BlindBestIndexIsBest(name, singles, ratio, n - 1);
    }
  }

  /** `find_fuzzy_pair(filename, single_sweep_files)`: the first other file
      with the strictly highest score, if that score is above 80. */
  function BlindFuzzyPair(name: string, singles: Dict<string, DF.Direction>, ratio: (string, string) -> int): Option<string>
  {
    match BlindBestIndex(name, singles, ratio, |singles|)
    case None => None
    case Some(k) => if ratio(name, singles[k].0) > 80 then Some(singles[k].0) else None
  }

  /** The match is another file, of either direction, scoring above 80 and
      the first with the highest score; there is none exactly when every
      other file scores 80 or less. */
  lemma BlindFuzzyPairIsBest(name: string, singles: Dict<string, DF.Direction>, ratio: (string, string) -> int)
    ensures var r := BlindFuzzyPair(name, singles, ratio);
      r.Some? ==> exists k :: (0 <= k < |singles| && singles[k].0 == r.value && r.value != name
        && ratio(name, r.value) > 80
        && (forall j :: 0 <= j < |singles| && singles[j].0 != name ==> ratio(name, singles[j].0) <= ratio(name, r.value))
        && forall j :: 0 <= j < k && singles[j].0 != name ==> ratio(name, singles[j].0) < ratio(name, r.value))
    ensures BlindFuzzyPair(name, singles, ratio).None? <==>
      forall j :: 0 <= j < |singles| && singles[j].0 != name ==> ratio(name, singles[j].0) <= 80
  {
    BlindBestIndexIsBest(name, singles, ratio, |singles|);
  }

  method FindFuzzyPair(name: string, singles: Dict<string, DF.Direction>, ratio: (string, string) -> int) returns (r: Option<string>)
    ensures r == BlindFuzzyPair(name, singles, ratio)
  {
    var best: Option<string> := None;
    var bestScore := 0;
    ghost var bestIndex: Option<nat> := None;
    var i := 0;
    while i < |singles|
      invariant 0 <= i <= |singles|
      invariant bestIndex == BlindBestIndex(name, singles, ratio, i)
      invariant bestIndex.None? ==> best.None? && bestScore == 0
      invariant bestIndex.Some? ==> best == Some(singles[bestIndex.value].0) && bestScore == ratio(name, singles[bestIndex.value].0)
    {
      var other := singles[i].0;
      if other != name {
        var score := ratio(name, other);
        if score > bestScore {
          best, bestScore := Some(other), score;
          bestIndex := Some(i);
        }
      }
      i := i + 1;
    }
    if bestScore > 80 {
      r := best;
    } else {
      r := None;
    }
  }

  // ---------------------------------------------------------------------
  // adjust_filename

  /** `adjust_filename(filename, existing_files)`: scans the existing keys
      and stops at the first one whose stem does not start with the stem of
      the file name. */
  function AdjustFilename(name: string, existing: seq<string>): string
  {
    AdjustFrom(name, existing, 0)
  }

  /** The scan from position `i` on. */
  function AdjustFrom(name: string, existing: seq<string>, i: nat): string
    requires i <= |existing|
    decreases |existing| - i
  {
    if i == |existing| then name
    else if |CommonPrefix(Stem(name), Stem(existing[i]))| < |Stem(name)| then Stem(name)
    else AdjustFrom(name, existing, i + 1)
  }

  /** The adjusted key is the stem of the file name as soon as some existing
      key's stem does not start with it: the common prefix plus the
      distinguishing suffix is the whole stem. */
  lemma AdjustFilenameStems(name: string, existing: seq<string>, k: nat)
    requires k < |existing| && !StartsWith(Stem(existing[k]), Stem(name))
    ensures AdjustFilename(name, existing) == Stem(name)
  {
    AdjustFromStems(name, existing, 0, k);
  }

  lemma {:induction false} AdjustFromStems(name: string, existing: seq<string>, i: nat, k: nat)
    requires i <= k < |existing| && !StartsWith(Stem(existing[k]), Stem(name))
    ensures AdjustFrom(name, existing, i) == Stem(name)
    decreases k - i
  {
    if i < k && |CommonPrefix(Stem(name), Stem(existing[i]))| >= |Stem(name)| {
      AdjustFromStems(name, existing, i + 1, k);
    }
  }

  /** When every existing key's stem starts with the stem of the file name,
      the file name is kept as it is. */
  lemma AdjustFilenameKeeps(name: string, existing: seq<string>)
    requires forall k :: 0 <= k < |existing| ==> StartsWith(Stem(existing[k]), Stem(name))
    ensures AdjustFilename(name, existing) == name
  {
    AdjustFromKeeps(name, existing, 0);
  }

  lemma {:induction false} AdjustFromKeeps(name: string, existing: seq<string>, i: nat)
    requires i <= |existing|
    requires forall k :: i <= k < |existing| ==> StartsWith(Stem(existing[k]), Stem(name))
    ensures AdjustFrom(name, existing, i) == name
    decreases |existing| - i
  {
    if i < |existing| {
      assert StartsWith(Stem(existing[i]), Stem(name));
      AdjustFromKeeps(name, existing, i + 1);
    }
  }

  method AdjustFilenameLoop(name: string, existing: seq<string>) returns (r: string)
    ensures r == AdjustFilename(name, existing)
  {
    var stripped := Stem(name);
    var i := 0;
    while i < |existing|
      invariant 0 <= i <= |existing|
      invariant AdjustFilename(name, existing) == AdjustFrom(name, existing, i)
    {
      var common := CommonPrefix(stripped, Stem(existing[i]));
      var suffix := stripped[|common|..];
      if suffix != [] {
        PrefixRest(stripped, common);
        return common + suffix;
      }
      i := i + 1;
    }
    r := name;
  }

  // ---------------------------------------------------------------------
  // detect_and_filter

  /** The state of the three loops: the result, the single-sweep files, the
      detector's data (mutated in place) and the processed names. */
  datatype Run = Run(result: DF.Folder, singles: Dict<string, DF.Direction>, data: DF.Folder, processed: set<string>)

  /** First loop, one file: a Forward+Reverse file is copied unchanged. */
  function SplitStep(s: Run, name: string, d: DF.Device): Run
  {
    if DF.TwoSweeps(d) then s.(result := Put(s.result, name, d))
    else if DF.OneSweep(d) then s.(singles := Put(s.singles, name, DF.SweepDirection(d)))
    else s
  }

  function Split(data: DF.Folder, n: nat): (r: Run)
    requires n <= |data|
    ensures r.data == data
  {
    if n == 0 then Run([], [], data, {}) else SplitStep(Split(data, n - 1), data[n - 1].0, data[n - 1].1)
  }

  /** Second loop, one single-sweep file: combined with its match when the
      match has the other direction, silently dropped otherwise. */
  function PairStep(s: Run, name: string, direction: DF.Direction, ratio: (string, string) -> int): (r: Result<Run>)
    ensures r.Ok? ==> r.value.singles == s.singles
  {
    if name in s.processed then Ok(s)
    else
      var matched := BlindFuzzyPair(name, s.singles, ratio);
      if matched.Some? && matched.value != "" && Lookup(s.singles, matched.value) != Some(direction) then
        var m := matched.value;
        if !Has(s.data, name) then Err(KeyError(name))
        else if !Has(s.data, m) then Err(KeyError(m))
        else
          var (combined, shared) := DF.Combine(Get(s.data, name), Get(s.data, m));
          Ok(s.(result := Put(s.result, AdjustFilename(name, Keys(s.result)), shared),
                data := Put(s.data, name, shared), processed := s.processed + {name, m}))
      else Ok(s.(data := Remove(s.data, name)))
  }

  function Paired(s: Run, n: nat, ratio: (string, string) -> int): (r: Result<Run>)
    requires n <= |s.singles|
    ensures r.Ok? ==> r.value.singles == s.singles
  {
    if n == 0 then Ok(s)
    else match Paired(s, n - 1, ratio)
      case Err(e) => Err(e)
      case Ok(t) => PairStep(t, s.singles[n - 1].0, s.singles[n - 1].1, ratio)
  }

  lemma {:induction false} PairedStaysFailed(s: Run, n: nat, m: nat, ratio: (string, string) -> int)
    requires n <= m <= |s.singles| && Paired(s, n, ratio).Err?
    ensures Paired(s, m, ratio) == Paired(s, n, ratio)
    decreases m - n
  {
    if n < m {
      PairedStaysFailed(s, n, m - 1, ratio);
    }
  }

  /** Third loop, one file: a file with several sweeps of a direction is
      kept as it is. */
  function AverageStep(s: Run, name: string, d: DF.Device): Run
  {
    if d.sweeps.forward > 1 || d.sweeps.reverse > 1 then s.(result := Put(s.result, name, d)) else s
  }

  function Averaged(s: Run, entries: DF.Folder, n: nat): (r: Run)
    requires n <= |entries|
    ensures r.data == s.data && r.singles == s.singles
  {
    if n == 0 then s else AverageStep(Averaged(s, entries, n - 1), entries[n - 1].0, entries[n - 1].1)
  }

  /** The three loops: the result before its keys are adjusted, and the
      data as they leave it. */
  function Filter(data: DF.Folder, ratio: (string, string) -> int): Result<Run>
  {
    var split := Split(data, |data|);
    var paired :- Paired(split, |split.singles|, ratio);
    Ok(Averaged(paired, paired.data, |paired.data|))
  }

  method SplitBySweeps(data: DF.Folder) returns (s: Run)
    ensures s == Split(data, |data|)
  {
    var result: DF.Folder := [];
    var singles: Dict<string, DF.Direction> := [];
    var i := 0;
    while i < |data|
      invariant 0 <= i <= |data|
      invariant Split(data, i) == Run(result, singles, data, {})
    {
      var name, d := data[i].0, data[i].1;
      var fw, rv := d.sweeps.forward, d.sweeps.reverse;
      if fw + rv == 2 && fw == rv {
        result := Put(result, name, d);
      } else if fw + rv == 1 {
        var direction := if fw == 1 then DF.Forward else DF.Reverse;
        singles := Put(singles, name, direction);
      }
      i := i + 1;
    }
    s := Run(result, singles, data, {});
  }

  method PairOne(s: Run, name: string, direction: DF.Direction, ratio: (string, string) -> int) returns (r: Result<Run>)
    ensures r == PairStep(s, name, direction, ratio)
  {
    if name in s.processed {
      return Ok(s);
    }
    var matched := FindFuzzyPair(name, s.singles, ratio);
    if matched.Some? && matched.value != "" && Lookup(s.singles, matched.value) != Some(direction) {
      var m := matched.value;
      if !Has(s.data, name) {
        return Err(KeyError(name));
      }
      if !Has(s.data, m) {
        return Err(KeyError(m));
      }
      var d1, d2 := Get(s.data, name), Get(s.data, m);
      var combined, shared := DF.CombineData(d1, d2);
      var key := AdjustFilenameLoop(name, Keys(s.result));
      var processed := s.processed + {name};
      processed := processed + {m};
      assert processed == s.processed + {name, m};
      r := Ok(s.(result := Put(s.result, key, shared),
                 data := Put(s.data, name, shared), processed := processed));
    } else {
      r := Ok(s.(data := Remove(s.data, name)));
    }
  }

  method PairSingles(s: Run, ratio: (string, string) -> int) returns (r: Result<Run>)
    ensures r == Paired(s, |s.singles|, ratio)
  {
    var t := s;
    var i := 0;
    while i < |s.singles|
      invariant 0 <= i <= |s.singles|
      invariant Paired(s, i, ratio) == Ok(t)
    {
      var step := PairOne(t, s.singles[i].0, s.singles[i].1, ratio);
      if step.Err? {
        PairedStaysFailed(s, i + 1, |s.singles|, ratio);
        return step;
      }
      t := step.value;
      i := i + 1;
    }
    r := Ok(t);
  }

  method AverageMultiSweeps(s: Run) returns (t: Run)
    requires forall e :: e in s.data ==> Valid(e.1.data)
    ensures t == Averaged(s, s.data, |s.data|)
  {
    var entries := s.data;
    t := s;
    var i := 0;
    while i < |entries|
      invariant 0 <= i <= |entries|
      invariant t == Averaged(s, entries, i)
    {
      var name, d := entries[i].0, entries[i].1;
      if d.sweeps.forward > 1 || d.sweeps.reverse > 1 {
        assert entries[i] in entries;
        var averaged := DF.CombineSweeps(d);
        t := t.(result := Put(t.result, name, averaged));
      }
      i := i + 1;
    }
  }

  /** A pairing step keeps every record's sweeps distinct-keyed. */
  lemma PairStepValid(s: Run, name: string, direction: DF.Direction, ratio: (string, string) -> int, t: Run)
    requires (forall e :: e in s.data ==> Valid(e.1.data)) && PairStep(s, name, direction, ratio) == Ok(t)
    ensures forall e :: e in t.data ==> Valid(e.1.data)
  {
    if name !in s.processed {
      var matched := BlindFuzzyPair(name, s.singles, ratio);
      if matched.Some? && matched.value != "" && Lookup(s.singles, matched.value) != Some(direction) {
        var m := matched.value;
        var d1, d2 := Get(s.data, name), Get(s.data, m);
        LookupIn(s.data, name);
        DF.MergedValid(d1.data, d2.data, |d2.data|);
        PutEntries(s.data, name, DF.Combine(d1, d2).1);
      } else {
        RemoveEntries(s.data, name);
      }
    }
  }

  lemma {:induction false} PairedValid(s: Run, n: nat, ratio: (string, string) -> int, t: Run)
    requires n <= |s.singles| && (forall e :: e in s.data ==> Valid(e.1.data)) && Paired(s, n, ratio) == Ok(t)
    ensures forall e :: e in t.data ==> Valid(e.1.data)
    decreases n
  {
    if n > 0 {
      var prev := Paired(s, n - 1, ratio);
      assert prev.Ok?;
      PairedValid(s, n - 1, ratio, prev.value);
      PairStepValid(prev.value, s.singles[n - 1].0, s.singles[n - 1].1, ratio, t);
    }
  }

  /** `DeviceDetector` of the older interface: holds the read files. */
  class DeviceDetector {
    var data: DF.Folder

    constructor(data: DF.Folder)
      ensures this.data == data
    {
      this.data := data;
    }

    /** `detect_and_filter()`: the devices with extension-less keys; unmatched
        single-sweep files are dropped from `data`. */
    method DetectAndFilter(ratio: (string, string) -> int) returns (r: Result<DF.Folder>)
      requires forall e :: e in data ==> Valid(e.1.data)
      modifies this
      ensures Filter(old(data), ratio).Err? ==> r == Err(Filter(old(data), ratio).error)
      ensures Filter(old(data), ratio).Ok? ==>
        r == Ok(DF.StemKeys(Filter(old(data), ratio).value.result)) && data == Filter(old(data), ratio).value.data
    {
      var split := SplitBySweeps(data);
      var paired := PairSingles(split, ratio);
      if paired.Err? {
        return Err(paired.error);
      }
      PairedValid(split, |split.singles|, ratio, paired.value);
      data := paired.value.data;
      var averaged := AverageMultiSweeps(paired.value);
      r := Ok(DF.StemKeys(averaged.result));
    }
  }

  // ---------------------------------------------------------------------
  // Properties

  /** A looked-up record if it has one Forward and one Reverse sweep. */
  function Copied(d: Option<DF.Device>): Option<DF.Device>
  {
    if d.Some? && DF.TwoSweeps(d.value) then d else None
  }

  /** The first loop's body stores a Forward+Reverse file under its own
      name and leaves every other key of the result. */
  lemma SplitStepResult(s: Run, name: string, d: DF.Device, k: string)
    ensures Lookup(SplitStep(s, name, d).result, k) ==
      if k == name && DF.TwoSweeps(d) then Some(d) else Lookup(s.result, k)
  {
    PutLookup(s.result, name, d, k);
  }

  /** After the first loop over the first `n` files, a Forward+Reverse
      file is in the result exactly as it was read. */
  lemma {:induction false} SplitCopiesTwoSweepFiles(data: DF.Folder, n: nat, k: string)
    requires Valid(data) && n <= |data|
    ensures Lookup(Split(data, n).result, k) == Copied(Lookup(data[..n], k))
  {
    if n > 0 {
      SplitCopiesTwoSweepFiles(data, n - 1, k);
      LookupPrefix(data, n, k);
      LastKeyFresh(data, n);
      SplitStepResult(Split(data, n - 1), data[n - 1].0, data[n - 1].1, k);
    }
  }

  /** After the first loop over the first `n` files, a file is a
      single-sweep candidate, with its direction, exactly when it has one
      sweep. */
  lemma {:induction false} SplitCollectsSingles(data: DF.Folder, n: nat, k: string)
    requires Valid(data) && n <= |data|
    ensures Lookup(Split(data, n).singles, k) == DF.Single(Lookup(data[..n], k))
  {
    if n > 0 {
      SplitCollectsSingles(data, n - 1, k);
      var prev := Split(data, n - 1);
      var name, d := data[n - 1].0, data[n - 1].1;
      LookupPrefix(data, n, k);
      PutLookup(prev.singles, name, DF.SweepDirection(d), k);
    }
  }

  /** A best match with the same stored direction, or none at all, drops the
      file from the data without a result entry. */
  lemma SameDirectionDrops(s: Run, name: string, direction: DF.Direction, ratio: (string, string) -> int)
    requires name !in s.processed
    requires var m := BlindFuzzyPair(name, s.singles, ratio);
      m.None? || m.value == "" || Lookup(s.singles, m.value) == Some(direction)
    ensures PairStep(s, name, direction, ratio) == Ok(s.(data := Remove(s.data, name)))
    ensures !Has(PairStep(s, name, direction, ratio).value.data, name)
  {
    RemoveLookup(s.data, name, name);
  }
}
