/** Format gating and sweep segmentation: `PotentiostatFileChecker` of
    Potentostats_check.py (the older one, answering a triple) and of
    GUI/Potentostats_check.py (which also segments the sweeps), and the
    `detect_iv_sweeps` segmenter. The file's bytes are not read: the
    encoding `chardet` guesses and the file's text lines are parameters. */
module PotentiostatCheck {
  import opened Wrappers
  import opened Strs
  import opened Dicts
  import opened Frames
  import LegacyInstruments
  import DataReader

  // ---------------------------------------------------------------------
  // gating

  /** `potentiostat_dict`: extension -> potentiostat -> marker text. */
  const Formats: Dict<string, Dict<string, string>> := [
    (".DTA", [("Gamry", "CURVE1\tTABLE")]),
    (".csv", [("PalmSens4", "Cyclic Voltammetry: CV i vs E")]),
    (".txt", [("SMU", "[0, 0, 0]")])
  ]

  /** `os.path.splitext(file)[1]`. */
  function Extension(file: string): (ext: string)
    ensures Stem(file) + ext == file
  {
    file[|Stem(file)|..]
  }

  /** The extensions whose potentiostats include `choice`, in table order. */
  function ExtensionsFor(formats: Dict<string, Dict<string, string>>, choice: string): (exts: seq<string>)
    ensures forall e :: e in exts <==> exists k :: 0 <= k < |formats| && formats[k].0 == e && Has(formats[k].1, choice)
  {
    if formats == [] then []
    else
      var rest := ExtensionsFor(formats[1..], choice);
      assert forall k :: 0 <= k < |formats| - 1 ==> formats[1..][k] == formats[k + 1];
      (if Has(formats[0].1, choice) then [formats[0].0] else []) + rest
  }

  /** The file is turned away before it is opened: its extension is not
      one of the chosen potentiostat's, or not in the table at all. */
  predicate Skipped(choice: string, ext: string)
  {
    (choice != "All" && ext !in ExtensionsFor(Formats, choice)) || !Has(Formats, ext)
  }

  /** `target_text in line` for one of the first 100 lines. */
  predicate MarkerInHead(lines: seq<string>, marker: string)
  {
    exists i :: 0 <= i < |lines| && i < 100 && Contains(lines[i], marker)
  }

  /** The first potentiostat, in table order, whose marker is in the head of
      the file. */
  function FirstMatch(pots: Dict<string, string>, lines: seq<string>): (r: Option<string>)
    ensures r.Some? ==> exists k :: (0 <= k < |pots| && pots[k].0 == r.value && MarkerInHead(lines, pots[k].1)
      && forall j :: 0 <= j < k ==> !MarkerInHead(lines, pots[j].1))
    ensures r.None? <==> forall k :: 0 <= k < |pots| ==> !MarkerInHead(lines, pots[k].1)
  {
    if pots == [] then None
    else if MarkerInHead(lines, pots[0].1) then Some(pots[0].0)
    else
      var r := FirstMatch(pots[1..], lines);
      assert forall k :: 0 <= k < |pots| - 1 ==> pots[1..][k] == pots[k + 1];
      if r.Some? then
        var k :| 0 <= k < |pots| - 1 && pots[1..][k].0 == r.value && MarkerInHead(lines, pots[1..][k].1)
          && forall j :: 0 <= j < k ==> !MarkerInHead(lines, pots[1..][j].1);
        assert forall j :: 0 <= j < k + 1 ==> !MarkerInHead(lines, pots[j].1);
        r
      else r
  }

  /** The inner loop: the first 100 lines at most, until the marker shows. */
  method ScanHead(lines: seq<string>, marker: string) returns (found: bool)
    ensures found <==> MarkerInHead(lines, marker)
  {
    var i := 0;
    while i < |lines|
      invariant 0 <= i <= |lines| && i <= 100
      invariant forall j :: 0 <= j < i ==> !Contains(lines[j], marker)
    {
      if i >= 100 {
        break;
      }
      if Contains(lines[i], marker) {
        return true;
      }
      i := i + 1;
    }
    return false;
  }

  /** The outer loop over the potentiostats registered for the extension. */
  method MatchPotentiostat(pots: Dict<string, string>, lines: seq<string>) returns (r: Option<string>)
    ensures r == FirstMatch(pots, lines)
  {
    var k := 0;
    while k < |pots|
      invariant 0 <= k <= |pots|
      invariant FirstMatch(pots, lines) == FirstMatch(pots[k..], lines)
    {
      var found := ScanHead(lines, pots[k].1);
      if found {
        return Some(pots[k].0);
      }
      assert pots[k..][1..] == pots[k + 1..];
      k := k + 1;
    }
    return None;
  }

  /** The registered table: three extensions, one potentiostat each. */
  lemma FormatsTable()
    ensures Valid(Formats)
    ensures forall e :: Has(Formats, e) <==> e in {".DTA", ".csv", ".txt"}
    ensures Get(Formats, ".DTA") == [("Gamry", "CURVE1\tTABLE")]
    ensures Get(Formats, ".csv") == [("PalmSens4", "Cyclic Voltammetry: CV i vs E")]
    ensures Get(Formats, ".txt") == [("SMU", "[0, 0, 0]")]
  {
    assert Keys(Formats) == [".DTA", ".csv", ".txt"];
  }

  /** A choice names the extension of its own potentiostat only, and a name
      that is not registered names none. */
  lemma ChoiceExtensions(choice: string)
    ensures choice == "Gamry" ==> ExtensionsFor(Formats, choice) == [".DTA"]
    ensures choice == "PalmSens4" ==> ExtensionsFor(Formats, choice) == [".csv"]
    ensures choice == "SMU" ==> ExtensionsFor(Formats, choice) == [".txt"]
    ensures choice !in {"Gamry", "PalmSens4", "SMU"} ==> ExtensionsFor(Formats, choice) == []
  {
    var f1, f2 := Formats[1..], Formats[2..];
    assert f1[1..] == f2 && f2[1..] == [];
    assert Keys(Formats[0].1) == ["Gamry"] && Keys(Formats[1].1) == ["PalmSens4"] && Keys(Formats[2].1) == ["SMU"];
    var e2 := (if Has(Formats[2].1, choice) then [".txt"] else []) + ExtensionsFor(f2[1..], choice);
    assert ExtensionsFor(f2, choice) == e2;
    var e1 := (if Has(Formats[1].1, choice) then [".csv"] else []) + e2;
    assert ExtensionsFor(f1, choice) == e1;
    assert ExtensionsFor(Formats, choice) == (if Has(Formats[0].1, choice) then [".DTA"] else []) + e1;
  }

  /** What `check_file` answers when it does not raise: whether the file was
      identified, the encoding used and the potentiostat. */
  datatype Check = Check(identified: bool, encoding: Option<string>, potentiostat: Option<string>)

  /** `PotentiostatFileChecker` of Potentostats_check.py. */
  class FileChecker {
    const choice: string

    constructor(choice: string)
      ensures this.choice == choice
    {
      this.choice := choice;
    }

    /** `check_file(file)`: `detected` is `chardet`'s guess at the encoding,
        `lines` the file's lines read with it. */
    method CheckFile(file: string, detected: Option<string>, lines: seq<string>) returns (r: Check)
      ensures Skipped(choice, Extension(file)) ==> r == Check(false, None, None)
      ensures !Skipped(choice, Extension(file)) ==> (r.encoding == detected
        && r.potentiostat == FirstMatch(Get(Formats, Extension(file)), lines)
        && (r.identified <==> r.potentiostat.Some?))
    {
      var ext := Extension(file);
      if choice != "All" {
        var exts := ExtensionsFor(Formats, choice);
        if ext !in exts {
          return Check(false, None, None);
        }
      }
      var pots := Lookup(Formats, ext);
      if pots.None? {
        return Check(false, None, None);
      }
      var found := MatchPotentiostat(pots.value, lines);
      if found.Some? {
        return Check(true, detected, found);
      }
      return Check(false, detected, None);
    }
  }

  /** `PotentiostatFileChecker` of GUI/Potentostats_check.py. It keeps the
      detected encoding in `self.encoding` and, on a match, asks
      `_get_number_of_sweeps` for the fourth element of its answer. That
      call builds `IVDataReader(file, potentiostat, self.encoding)`, three
      arguments for a constructor that takes four (GUI/Data_Reader.py:15),
      so every identified file raises TypeError; every answer that does not
      raise has None as its fourth element, which `Check` leaves out. */
  /** The error of calling `IVDataReader.__init__` without its fourth argument. */
  const MISSING_ENCODING := "IVDataReader.__init__() missing 1 required positional argument: 'encoding'"

  class GuiFileChecker {
    const choice: string
    var encoding: Option<string>

    constructor(choice: string)
      ensures this.choice == choice && encoding == None
    {
      this.choice := choice;
      encoding := None;
    }

    method CheckFile(file: string, detected: Option<string>, lines: seq<string>) returns (r: Result<Check>)
      modifies this
      ensures Skipped(choice, Extension(file)) ==> r == Ok(Check(false, None, None)) && encoding == old(encoding)
      ensures !Skipped(choice, Extension(file)) ==> (encoding == detected
        && (r.Err? <==> FirstMatch(Get(Formats, Extension(file)), lines).Some?)
        && (r.Err? ==> r.error == TypeError(MISSING_ENCODING))
        && (r.Ok? ==> r.value == Check(false, detected, None)))
    {
      var ext := Extension(file);
      if choice != "All" {
        var exts := ExtensionsFor(Formats, choice);
        if ext !in exts {
          return Ok(Check(false, None, None));
        }
      }
      var pots := Lookup(Formats, ext);
      if pots.None? {
        return Ok(Check(false, None, None));
      }
      encoding := detected;
      var found := MatchPotentiostat(pots.value, lines);
      if found.Some? {
        return Err(TypeError(MISSING_ENCODING));
      }
      return Ok(Check(false, encoding, None));
    }
  }

  /** The answer `check_file` documents: the `Check` and, for an
      identified file, the sweeps of its table. */
  datatype Answer = Answer(check: Check, sweeps: Option<Sweeps>)

  /** `check_file` as its docstring describes it, with the reader called
      with all four arguments and its table handed to `detect_iv_sweeps`.
      `read` stands for what `IVDataReader(None, file, potentiostat,
      self.encoding).read()` yields for a matched file, its table unpacked
      from the `(df, current_unit)` pair. */
  class IntendedFileChecker {
    const choice: string
    var encoding: Option<string>

    constructor(choice: string)
      ensures this.choice == choice && encoding == None
    {
      this.choice := choice;
      encoding := None;
    }

    method CheckFile(file: string, detected: Option<string>, lines: seq<string>, read: Result<Frame>) returns (r: Result<Answer>)
      modifies this
      ensures Skipped(choice, Extension(file)) ==> r == Ok(Answer(Check(false, None, None), None)) && encoding == old(encoding)
      ensures !Skipped(choice, Extension(file)) ==> encoding == detected
      ensures !Skipped(choice, Extension(file)) && FirstMatch(Get(Formats, Extension(file)), lines).None? ==>
        r == Ok(Answer(Check(false, detected, None), None))
      ensures !Skipped(choice, Extension(file)) && FirstMatch(Get(Formats, Extension(file)), lines).Some? ==>
        (r.Ok? <==> read.Ok? && |read.value| > 0)
        && (read.Err? ==> r == Err(read.error))
        && (r.Ok? ==> (r.value.check == Check(true, detected, FirstMatch(Get(Formats, Extension(file)), lines))
                       && r.value.sweeps.Some? && Describes(read.value, r.value.sweeps.value)))
    {
      var ext := Extension(file);
      if choice != "All" {
        var exts := ExtensionsFor(Formats, choice);
        if ext !in exts {
          return Ok(Answer(Check(false, None, None), None));
        }
      }
      var pots := Lookup(Formats, ext);
      if pots.None? {
        return Ok(Answer(Check(false, None, None), None));
      }
      encoding := detected;
      var found := MatchPotentiostat(pots.value, lines);
      if found.None? {
        return Ok(Answer(Check(false, encoding, None), None));
      }
      var df :- read;
      var sweeps :- DetectIvSweeps(df);
      return Ok(Answer(Check(true, encoding, found), Some(sweeps)));
    }
  }

  /** With every potentiostat allowed, a file is identified exactly when its
      extension is registered and that potentiostat's marker is in one of
      its first 100 lines. */
  lemma IdentifiedByMarker(file: string, lines: seq<string>)
    ensures !Skipped("All", Extension(file)) <==> Extension(file) in {".DTA", ".csv", ".txt"}
    ensures Extension(file) == ".DTA" ==> (FirstMatch(Get(Formats, ".DTA"), lines) == Some("Gamry") <==> MarkerInHead(lines, "CURVE1\tTABLE"))
    ensures Extension(file) == ".csv" ==> (FirstMatch(Get(Formats, ".csv"), lines) == Some("PalmSens4") <==> MarkerInHead(lines, "Cyclic Voltammetry: CV i vs E"))
    ensures Extension(file) == ".txt" ==> (FirstMatch(Get(Formats, ".txt"), lines) == Some("SMU") <==> MarkerInHead(lines, "[0, 0, 0]"))
  {
    FormatsTable();
  }

  // ---------------------------------------------------------------------
  // detect_iv_sweeps

  function Sign(x: real): int
  {
    LegacyInstruments.Sign(x)
  }

  /** The sign of V at row `j` differs from the row before. */
  predicate ChangesAt(f: Frame, j: nat)
    requires 0 < j < |f|
  {
    Sign(f[j].v) != Sign(f[j - 1].v)
  }

  /** The rows below `n`, past the first, where the sign of V differs from the
      row before: `np.sign(df[col]).diff().ne(0)` once row 0 is dropped. */
  function SignChangesBelow(f: Frame, n: nat): (bs: seq<nat>)
    requires n <= |f|
    ensures forall k :: 0 <= k < |bs| ==> 0 < bs[k] < n
    ensures forall k, m :: 0 <= k < m < |bs| ==> bs[k] < bs[m]
  {
    if n <= 1 then []
    else SignChangesBelow(f, n - 1) + (if ChangesAt(f, n - 1) then [n - 1] else [])
  }

  /** Every boundary is a sign change. */
  lemma {:induction false} SignChangesAreChanges(f: Frame, n: nat)
    requires n <= |f|
    ensures forall k :: 0 <= k < |SignChangesBelow(f, n)| ==> ChangesAt(f, SignChangesBelow(f, n)[k])
  {
    if n > 1 {
      SignChangesAreChanges(f, n - 1);
      var prev := SignChangesBelow(f, n - 1);
      var bs := SignChangesBelow(f, n);
      assert bs == prev + (if ChangesAt(f, n - 1) then [n - 1] else []);
      assert forall k :: 0 <= k < |prev| ==> bs[k] == prev[k];
    }
  }

  /** Every sign change is a boundary. */
  lemma {:induction false} SignChangesComplete(f: Frame, n: nat)
    requires n <= |f|
    ensures forall j :: 0 < j < n && ChangesAt(f, j) ==> j in SignChangesBelow(f, n)
  {
    if n > 1 {
      SignChangesComplete(f, n - 1);
      var prev := SignChangesBelow(f, n - 1);
      var bs := SignChangesBelow(f, n);
      assert bs == prev + (if ChangesAt(f, n - 1) then [n - 1] else []);
      forall j | 0 < j < n && ChangesAt(f, j) ensures j in bs {
        if j < n - 1 {
          assert j in prev;
        } else {
          assert bs[|bs| - 1] == n - 1;
        }
      }
    }
  }

  function SignChanges(f: Frame): (bs: seq<nat>)
    ensures forall k :: 0 <= k < |bs| ==> 0 < bs[k] < |f|
    ensures forall k, m :: 0 <= k < m < |bs| ==> bs[k] < bs[m]
  {
    SignChangesBelow(f, |f|)
  }

  /** A sweep boundary where V rises counts as Forward, any other as Reverse. */
  predicate Rising(f: Frame, b: nat)
    requires 0 < b < |f|
  {
    f[b - 1].v < f[b].v
  }

  function ForwardCount(f: Frame, bs: seq<nat>): (n: nat)
    requires forall k :: 0 <= k < |bs| ==> 0 < bs[k] < |f|
    ensures n <= |bs|
  {
    if bs == [] then 0 else ForwardCount(f, bs[..|bs| - 1]) + (if Rising(f, bs[|bs| - 1]) then 1 else 0)
  }

  /** Every row of the slice has the sign of its first row. */
  predicate OneSign(seg: Frame)
  {
    forall j :: 0 <= j < |seg| ==> Sign(seg[j].v) == Sign(seg[0].v)
  }

  /** `segs` cuts `f` into non-empty slices, each on one side of zero, and
      each on the other side from the slice before it. */
  predicate Segmentation(f: Frame, segs: seq<Frame>)
  {
    DataReader.Concat(segs) == f
    && (forall k :: 0 <= k < |segs| ==> segs[k] != [] && OneSign(segs[k]))
    && forall k :: 0 <= k < |segs| - 1 && segs[k] != [] && segs[k + 1] != [] ==>
      Sign(segs[k][|segs[k]| - 1].v) != Sign(segs[k + 1][0].v)
  }

  /** The counts and the numbered segments `detect_iv_sweeps` returns. */
  datatype Sweeps = Sweeps(total: nat, forward: nat, reverse: nat, data: Dict<string, Frame>)

  /** Segment numbers are "1", "2", ... in order. */
  function SegmentKeys(n: nat): (ks: seq<string>)
    ensures |ks| == n && Distinct(ks)
  {
    var ks := seq(n, k requires 0 <= k < n => NatToString(k + 1));
    forall i, j | 0 <= i < j < n ensures ks[i] != ks[j] {
      if ks[i] == ks[j] {
        NatToStringInjective(i + 1, j + 1);
      }
    }
    ks
  }

  /** No sign change strictly inside a slice keeps the slice on one side of
      zero. */
  lemma {:induction false} NoChangeOneSign(f: Frame, lo: nat, hi: nat)
    requires lo < hi <= |f|
    requires forall j :: lo < j < hi ==> !ChangesAt(f, j)
    ensures forall j :: lo <= j < hi ==> Sign(f[j].v) == Sign(f[lo].v)
  {
    if hi - lo > 1 {
      NoChangeOneSign(f, lo, hi - 1);
      assert !ChangesAt(f, hi - 1);
    }
  }

  /** The start of segment `k`: row 0, or the boundary before it. */
  function Lo(bs: seq<nat>, k: nat): nat
    requires k <= |bs|
  {
    if k == 0 then 0 else bs[k - 1]
  }

  /** The end of segment `k`: the next boundary, or the end of the table. */
  function Hi(f: Frame, bs: seq<nat>, k: nat): nat
    requires k <= |bs|
  {
    if k == |bs| then |f| else bs[k]
  }

  /** Cut at the sign changes, every segment is non-empty and on one side of
      zero, and neighbouring segments are on different sides. */
  lemma SegmentsShape(f: Frame, segs: seq<Frame>)
    requires |f| > 0
    requires segs == Segments(f, SignChanges(f), |SignChanges(f)| + 1)
    requires DataReader.Concat(segs) == f
    ensures Segmentation(f, segs)
  {
    SegmentsOneSign(f, segs);
    SegmentsAlternate(f, segs);
  }

  lemma SegmentsOneSign(f: Frame, segs: seq<Frame>)
    requires |f| > 0
    requires segs == Segments(f, SignChanges(f), |SignChanges(f)| + 1)
    ensures forall k :: 0 <= k < |segs| ==> segs[k] != [] && OneSign(segs[k])
  {
    forall k | 0 <= k < |segs|
      ensures segs[k] != [] && OneSign(segs[k])
    {
      SegmentOneSign(f, k);
    }
  }

  lemma SegmentsAlternate(f: Frame, segs: seq<Frame>)
    requires |f| > 0
    requires segs == Segments(f, SignChanges(f), |SignChanges(f)| + 1)
    ensures forall k :: 0 <= k < |segs| - 1 && segs[k] != [] && segs[k + 1] != [] ==>
      Sign(segs[k][|segs[k]| - 1].v) != Sign(segs[k + 1][0].v)
  {
    var bs := SignChanges(f);
    forall k | 0 <= k < |segs| - 1 && segs[k] != [] && segs[k + 1] != []
      ensures Sign(segs[k][|segs[k]| - 1].v) != Sign(segs[k + 1][0].v)
    {
      SegmentJunction(f, k);
      assert segs[k][|segs[k]| - 1] == f[Hi(f, bs, k) - 1];
      assert segs[k + 1][0] == f[Lo(bs, k + 1)];
    }
  }

  /** Segment `k` ends just before boundary `k` and segment `k + 1` starts
      on it, where the sign changes. */
  lemma SegmentJunction(f: Frame, k: nat)
    requires |f| > 0 && k < |SignChanges(f)|
    ensures var bs := SignChanges(f);
      Lo(bs, k) < Hi(f, bs, k) && Lo(bs, k + 1) < Hi(f, bs, k + 1)
      && Sign(f[Hi(f, bs, k) - 1].v) != Sign(f[Lo(bs, k + 1)].v)
  {
    var bs := SignChanges(f);
    SignChangesAreChanges(f, |f|);
    assert ChangesAt(f, bs[k]);
  }

  /** No boundary lies strictly inside segment `k`. */
  lemma NoCutInside(f: Frame, bs: seq<nat>, k: nat, j: nat)
    requires Cuts(f, bs) && k <= |bs|
    requires Lo(bs, k) < j < Hi(f, bs, k)
    ensures j !in bs
  {
    forall m | 0 <= m < |bs| ensures bs[m] != j {
      if m < k {
        assert bs[m] <= bs[k - 1];
      } else {
        assert bs[k] <= bs[m];
      }
    }
  }

  /** Segment `k` lies between consecutive boundaries, so no sign change
      falls strictly inside it. */
  lemma SegmentOneSign(f: Frame, k: nat)
    requires |f| > 0 && k <= |SignChanges(f)|
    ensures Lo(SignChanges(f), k) < Hi(f, SignChanges(f), k)
    ensures OneSign(f[Lo(SignChanges(f), k)..Hi(f, SignChanges(f), k)])
  {
    var bs := SignChanges(f);
    SignChangesComplete(f, |f|);
    var lo, hi := Lo(bs, k), Hi(f, bs, k);
    forall j | lo < j < hi ensures !ChangesAt(f, j) {
      NoCutInside(f, bs, k, j);
    }
    NoChangeOneSign(f, lo, hi);
    assert forall j :: 0 <= j < hi - lo ==> f[lo..hi][j] == f[lo + j];
  }

  /** `s` is what `detect_iv_sweeps` reports for `f`: one sweep per sign
      change of V, split into rising and falling ones, and the segments
      between the changes numbered from "1". */
  predicate Describes(f: Frame, s: Sweeps)
  {
    var bs := SignChanges(f);
    s.total == |bs| && s.forward == ForwardCount(f, bs) && s.reverse == |bs| - s.forward
    && Keys(s.data) == SegmentKeys(|bs| + 1) && Valid(s.data)
    && Segmentation(f, Values(s.data))
  }

  /** `detect_iv_sweeps(df, 'V')` on a table with the default 0-based index.
      An empty table raises IndexError at `df_sign_changes.index[0]`. */
  method DetectIvSweeps(f: Frame) returns (r: Result<Sweeps>)
    ensures r.Err? <==> |f| == 0
    ensures r.Err? ==> r.error.IndexError?
    ensures r.Ok? ==> Describes(f, r.value)
  {
    if |f| == 0 {
      return Err(IndexError("index 0 is out of bounds for axis 0 with size 0"));
    }
    var bs := SignChanges(f);
    var segs, forward, reverse := CutSweeps(f, bs);
    SegmentsShape(f, segs);
    var keys := SegmentKeys(|segs|);
    var data := seq(|segs|, k requires 0 <= k < |segs| => (keys[k], segs[k]));
    assert Values(data) == segs;
    assert Keys(data) == keys;
    r := Ok(Sweeps(|bs|, forward, reverse, data));
  }

  /** Increasing row numbers inside the table, past its first row. */
  predicate Cuts(f: Frame, bs: seq<nat>)
  {
    (forall k :: 0 <= k < |bs| ==> 0 < bs[k] < |f|)
    && forall k, m :: 0 <= k < m < |bs| ==> bs[k] < bs[m]
  }

  /** The first `n` segments the boundaries `bs` cut `f` into. */
  function Segments(f: Frame, bs: seq<nat>, n: nat): (segs: seq<Frame>)
    requires Cuts(f, bs) && n <= |bs| + 1
    ensures |segs| == n
    ensures forall k :: 0 <= k < n ==> segs[k] == f[Lo(bs, k)..Hi(f, bs, k)]
  {
    seq(n, k requires 0 <= k < n => f[Lo(bs, k)..Hi(f, bs, k)])
  }

  /** The segments, put back together, give the table up to where the last
      of them ends. */
  lemma {:induction false} SegmentsConcat(f: Frame, bs: seq<nat>, n: nat)
    requires Cuts(f, bs) && 0 < n <= |bs| + 1
    ensures DataReader.Concat(Segments(f, bs, n)) == f[..Hi(f, bs, n - 1)]
  {
    SegmentsSnoc(f, bs, n - 1);
    var prev := Segments(f, bs, n - 1);
    var last := f[Lo(bs, n - 1)..Hi(f, bs, n - 1)];
    ConcatPrefix(prev, [last]);
    if n > 1 {
      SegmentsConcat(f, bs, n - 1);
      SliceJoin(f, Lo(bs, n - 1), Hi(f, bs, n - 1));
    } else {
      SliceJoin(f, 0, Hi(f, bs, 0));
    }
  }

  /** A prefix and the slice that follows it make the longer prefix. */
  lemma SliceJoin(f: Frame, lo: nat, hi: nat)
    requires lo <= hi <= |f|
    ensures f[..lo] + f[lo..hi] == f[..hi]
  {
  }

  /** One more boundary adds its direction to the tally. */
  lemma ForwardCountSnoc(f: Frame, bs: seq<nat>, i: nat)
    requires Cuts(f, bs) && i < |bs|
    ensures ForwardCount(f, bs[..i + 1]) == ForwardCount(f, bs[..i]) + (if Rising(f, bs[i]) then 1 else 0)
  {
    assert bs[..i + 1][..i] == bs[..i];
  }

  /** One more segment is appended at the end. */
  lemma SegmentsSnoc(f: Frame, bs: seq<nat>, n: nat)
    requires Cuts(f, bs) && n <= |bs|
    ensures Segments(f, bs, n + 1) == Segments(f, bs, n) + [f[Lo(bs, n)..Hi(f, bs, n)]]
  {
  }

  /** The loop of `detect_iv_sweeps`: one slice per boundary up to it, one
      after the last, and a Forward or Reverse tally per boundary. */
  method CutSweeps(f: Frame, bs: seq<nat>) returns (segs: seq<Frame>, forward: nat, reverse: nat)
    requires |f| > 0 && Cuts(f, bs)
    ensures segs == Segments(f, bs, |bs| + 1) && DataReader.Concat(segs) == f
    ensures forward == ForwardCount(f, bs) && forward + reverse == |bs|
  {
    forward, reverse := 0, 0;
    segs := [];
    var start := 0;
    var i := 0;
    while i < |bs|
      invariant 0 <= i <= |bs| && start == Lo(bs, i)
      invariant segs == Segments(f, bs, i)
      invariant forward == ForwardCount(f, bs[..i]) && forward + reverse == i
    {
      var end := bs[i];
      ForwardCountSnoc(f, bs, i);
      SegmentsSnoc(f, bs, i);
      if f[end - 1].v < f[end].v {
        forward := forward + 1;
      } else {
        reverse := reverse + 1;
      }
      segs := segs + [f[start..end]];
      start := end;
      i := i + 1;
    }
    PrefixAll(bs);
    SegmentsSnoc(f, bs, i);
    segs := segs + [f[start..]];
    SegmentsConcat(f, bs, |bs| + 1);
    PrefixAll(f);
  }
}
