/** The main window of the JV plotter (JV_plotter_GUI/Main_frame.py): the
    settings its check boxes switch, the device names `detect_pixels`
    collects, and `final_output`, which drops the devices without a
    forward/reverse pair and hands the rest to the later stages. Widgets,
    dialogs and timing are left out; a dialog the window shows is a
    `Notice` in the model. */
module MainFrame {
  import opened Wrappers
  import opened Dicts
  import opened Records
  import IV = IvParameters
  import DF = DeviceFilter

  // ---------------------------------------------------------------------
  // `activate_setting`

  /** The settings `activate_setting` switches. */
  datatype Settings = Settings(iaa: bool, openWb: bool, colorWb: bool, dumpJson: bool,
                               filter1: bool, filter2: bool, stat: string)

  /** The error statistics the pixel sorter offers. */
  const STATS: seq<string> := ["std_dev", "mae", "mse", "rmse", "mape", "mad"]

  /** The check-box settings, each naming the flag it sets. */
  const FLAGS: seq<string> := ["identical_active_areas", "open_wb", "color_wb", "dump_json", "filter1", "filter2"]

  /** Which branch of `activate_setting` a word takes: k < 6 for the flag
      FLAGS[k], 6 for a statistic, 7 for any other word. */
  function Branch(setting: string): (k: nat)
    ensures k <= 7
    ensures k < 6 ==> setting == FLAGS[k]
    ensures k == 6 ==> setting in STATS
    ensures k == 7 ==> setting !in FLAGS && setting !in STATS
    ensures setting in FLAGS ==> k < 6
    ensures setting in STATS ==> k == 6
  {
    if setting == "identical_active_areas" then 0
    else if setting == "open_wb" then 1
    else if setting == "color_wb" then 2
    else if setting == "dump_json" then 3
    else if setting == "filter1" then 4
    else if setting == "filter2" then 5
    else if setting in STATS then 6
    else 7
  }

  /** `activate_setting(setting)`, `checked` being the state of the check
      box the setting names: a flag takes that state, a statistic becomes
      `stat`, and any other word changes nothing. */
  function Activated(s: Settings, setting: string, checked: bool): (r: Settings)
    ensures r.stat != s.stat ==> setting in STATS
    ensures setting in STATS ==> r == s.(stat := setting)
    ensures setting !in FLAGS && setting !in STATS ==> r == s
    ensures r.iaa != s.iaa ==> setting == FLAGS[0] && r.iaa == checked
    ensures r.openWb != s.openWb ==> setting == FLAGS[1] && r.openWb == checked
    ensures r.colorWb != s.colorWb ==> setting == FLAGS[2] && r.colorWb == checked
    ensures r.dumpJson != s.dumpJson ==> setting == FLAGS[3] && r.dumpJson == checked
    ensures r.filter1 != s.filter1 ==> setting == FLAGS[4] && r.filter1 == checked
    ensures r.filter2 != s.filter2 ==> setting == FLAGS[5] && r.filter2 == checked
    ensures setting == FLAGS[4] ==> r == s.(filter1 := checked)
    ensures setting == FLAGS[5] ==> r == s.(filter2 := checked)
  {
    match Branch(setting)
    case 0 => s.(iaa := checked)
    case 1 => s.(openWb := checked)
    case 2 => s.(colorWb := checked)
    case 3 => s.(dumpJson := checked)
    case 4 => s.(filter1 := checked)
    case 5 => s.(filter2 := checked)
    case 6 => s.(stat := setting)
    case _ => s
  }

  // ---------------------------------------------------------------------
  // `detect_pixels`

  /** Every device name of every folder, folder by folder. */
  function AllNames(detected: Dict<string, DF.Folder>): seq<string>
  {
    if detected == [] then []
    else AllNames(detected[..|detected| - 1]) + Keys(detected[|detected| - 1].1)
  }

  /** `s` without repeats, each name where it first occurs: what adding
      to a set only the names not yet in it leaves. */
  function Dedup(s: seq<string>): seq<string>
  {
    if s == [] then []
    else
      var prev := Dedup(s[..|s| - 1]);
      if s[|s| - 1] in prev then prev else prev + [s[|s| - 1]]
  }

  /** One more name is kept exactly when it is new. */
  lemma DedupSnoc(s: seq<string>, x: string)
    ensures Dedup(s + [x]) == if x in Dedup(s) then Dedup(s) else Dedup(s) + [x]
  {
    assert (s + [x])[..|s|] == s;
  }

  /** One more device name of a folder is kept exactly when it is new. */
  lemma AddNameStep(seen: seq<string>, devs: DF.Folder, j: nat)
    requires j < |devs|
    ensures Dedup(seen + Keys(devs)[..j + 1])
      == if devs[j].0 in Dedup(seen + Keys(devs)[..j]) then Dedup(seen + Keys(devs)[..j])
         else Dedup(seen + Keys(devs)[..j]) + [devs[j].0]
  {
    assert Keys(devs)[..j + 1] == Keys(devs)[..j] + [devs[j].0];
    assert seen + Keys(devs)[..j + 1] == (seen + Keys(devs)[..j]) + [devs[j].0];
    DedupSnoc(seen + Keys(devs)[..j], devs[j].0);
  }

  /** The names without repeats hold every name and nothing else. */
  lemma {:induction false} DedupMeaning(s: seq<string>)
    ensures Distinct(Dedup(s))
    ensures forall x :: x in Dedup(s) <==> x in s
  {
    if s != [] {
      var init := s[..|s| - 1];
      DedupMeaning(init);
      assert s == init + [s[|s| - 1]];
    }
  }

  /** A name is among all names exactly when some folder has a device of
      that name. */
  lemma {:induction false} AllNamesMeaning(detected: Dict<string, DF.Folder>)
    ensures forall x :: x in AllNames(detected) <==>
      exists i, j :: 0 <= i < |detected| && 0 <= j < |detected[i].1| && detected[i].1[j].0 == x
  {
    if detected != [] {
      var n := |detected| - 1;
      var init := detected[..n];
      AllNamesMeaning(init);
      forall x
        ensures x in AllNames(detected) <==>
          exists i, j :: 0 <= i < |detected| && 0 <= j < |detected[i].1| && detected[i].1[j].0 == x
      {
        if x in Keys(detected[n].1) {
          var j :| 0 <= j < |detected[n].1| && detected[n].1[j].0 == x;
        }
        if exists i, j :: 0 <= i < |detected| && 0 <= j < |detected[i].1| && detected[i].1[j].0 == x {
          var i, j :| 0 <= i < |detected| && 0 <= j < |detected[i].1| && detected[i].1[j].0 == x;
          if i < n {
            assert init[i] == detected[i];
          } else {
            assert Keys(detected[n].1)[j] == x;
          }
        }
      }
    }
  }

  /** `all_unique_devices`: each device name of any folder, exactly once. */
  lemma UniqueDevices(detected: Dict<string, DF.Folder>)
    ensures Distinct(Dedup(AllNames(detected)))
    ensures forall x :: x in Dedup(AllNames(detected)) <==>
      exists i, j :: 0 <= i < |detected| && 0 <= j < |detected[i].1| && detected[i].1[j].0 == x
  {
    DedupMeaning(AllNames(detected));
    AllNamesMeaning(detected);
  }

  // ---------------------------------------------------------------------
  // The pair check of `final_output`

  /** A device is kept when its sweeps hold '1_Forward' and '2_Reverse' or
      '1_Reverse' and '2_Forward'. */
  predicate HasPair(rec: Record)
  {
    (Has(rec.data, "1_Forward") && Has(rec.data, "2_Reverse"))
    || (Has(rec.data, "1_Reverse") && Has(rec.data, "2_Forward"))
  }

  /** `devices_to_remove`: the failing devices' names, in order. */
  function Failing(devs: Dict<string, Record>): seq<string>
  {
    if devs == [] then []
    else (if HasPair(devs[0].1) then [] else [devs[0].0]) + Failing(devs[1..])
  }

  /** The devices that pass, in order. */
  function Kept(devs: Dict<string, Record>): Dict<string, Record>
  {
    if devs == [] then []
    else (if HasPair(devs[0].1) then [devs[0]] else []) + Kept(devs[1..])
  }

  /** The entries whose names are not among `names`. */
  function Drop(devs: Dict<string, Record>, names: seq<string>): Dict<string, Record>
  {
    if devs == [] then []
    else (if devs[0].0 in names then [] else [devs[0]]) + Drop(devs[1..], names)
  }

  /** A name is listed for removal exactly when a device of that name
      lacks the pair. */
  lemma {:induction false} FailingMeaning(devs: Dict<string, Record>)
    ensures forall x :: x in Failing(devs) <==>
      exists j :: 0 <= j < |devs| && devs[j].0 == x && !HasPair(devs[j].1)
  {
    if devs != [] {
      var t := devs[1..];
      FailingMeaning(t);
      forall x
        ensures x in Failing(devs) <==> exists j :: 0 <= j < |devs| && devs[j].0 == x && !HasPair(devs[j].1)
      {
        if exists j :: 0 <= j < |devs| && devs[j].0 == x && !HasPair(devs[j].1) {
          var j :| 0 <= j < |devs| && devs[j].0 == x && !HasPair(devs[j].1);
          if j > 0 {
            assert t[j - 1] == devs[j];
          }
        }
        if x in Failing(t) {
          var j :| 0 <= j < |t| && t[j].0 == x && !HasPair(t[j].1);
          assert devs[j + 1] == t[j];
        }
      }
    }
  }

  /** The kept devices are those of the folder that have the pair. */
  lemma {:induction false} KeptMeaning(devs: Dict<string, Record>)
    ensures forall e :: e in Kept(devs) <==> e in devs && HasPair(e.1)
  {
    if devs != [] {
      KeptMeaning(devs[1..]);
      assert devs == [devs[0]] + devs[1..];
    }
  }

  lemma {:induction false} FailingConcat(a: Dict<string, Record>, b: Dict<string, Record>)
    ensures Failing(a + b) == Failing(a) + Failing(b)
  {
    if a != [] {
      var head := if HasPair(a[0].1) then [] else [a[0].0];
      assert (a + b)[0] == a[0] && (a + b)[1..] == a[1..] + b;
      assert Failing(a + b) == head + Failing(a[1..] + b);
      FailingConcat(a[1..], b);
      assert Failing(a) == head + Failing(a[1..]);
    } else {
      assert a + b == b;
    }
  }

  lemma {:induction false} DropNothing(devs: Dict<string, Record>)
    ensures Drop(devs, []) == devs
  {
    if devs != [] {
      DropNothing(devs[1..]);
    }
  }

  /** Deleting one more name from what is left. */
  lemma {:induction false} DropMore(devs: Dict<string, Record>, names: seq<string>, k: string)
    ensures Remove(Drop(devs, names), k) == Drop(devs, names + [k])
  {
    if devs != [] {
      DropMore(devs[1..], names, k);
      var rest := Drop(devs[1..], names);
      var x := devs[0];
      assert x.0 in names + [k] <==> x.0 in names || x.0 == k;
      if x.0 in names {
        assert Drop(devs, names) == rest;
        assert Drop(devs, names + [k]) == Drop(devs[1..], names + [k]);
      } else {
        assert Drop(devs, names) == [x] + rest;
        assert ([x] + rest)[0] == x && ([x] + rest)[1..] == rest;
        if x.0 == k {
          assert Remove([x] + rest, k) == Remove(rest, k);
          assert Drop(devs, names + [k]) == Drop(devs[1..], names + [k]);
        } else {
          assert Remove([x] + rest, k) == [x] + Remove(rest, k);
          assert Drop(devs, names + [k]) == [x] + Drop(devs[1..], names + [k]);
        }
      }
    }
  }

  /** Only the names the folder has matter to what deleting them leaves. */
  lemma {:induction false} DropSame(devs: Dict<string, Record>, a: seq<string>, b: seq<string>)
    requires forall k :: k in Keys(devs) ==> (k in a <==> k in b)
    ensures Drop(devs, a) == Drop(devs, b)
  {
    if devs != [] {
      assert Keys(devs)[0] == devs[0].0;
      assert forall k :: k in Keys(devs[1..]) ==> k in Keys(devs) by {
        forall k | k in Keys(devs[1..]) ensures k in Keys(devs) {
          var j :| 0 <= j < |devs[1..]| && Keys(devs[1..])[j] == k;
          assert Keys(devs)[j + 1] == k;
        }
      }
      DropSame(devs[1..], a, b);
    }
  }

  /** Deleting the failing names from a folder (whose keys are distinct,
      as a dictionary's are) leaves exactly the kept devices. */
  lemma {:induction false} DropFailing(devs: Dict<string, Record>)
    requires Valid(devs)
    ensures Drop(devs, Failing(devs)) == Kept(devs)
  {
    if devs != [] {
      var t := devs[1..];
      var head := if HasPair(devs[0].1) then [] else [devs[0].0];
      ValidTail(devs);
      FailingMeaning(t);
      assert forall j :: 0 <= j < |t| ==> t[j].0 != devs[0].0 by {
        forall j | 0 <= j < |t| ensures t[j].0 != devs[0].0 {
          assert Keys(t)[j] == t[j].0;
        }
      }
      DropSame(t, head + Failing(t), Failing(t));
      DropFailing(t);
    }
  }

  /** The folders after the pair check: each keeps its name and loses the
      devices without a pair. */
  function Checked(matched: Folders): (r: Folders)
    ensures IV.AllLit(matched) ==> IV.AllLit(r)
  {
    KeptLit(matched);
    seq(|matched|, i requires 0 <= i < |matched| => (matched[i].0, Kept(matched[i].1)))
  }

  /** A dialog the window shows. */
  datatype Notice =
    | NoFolder                                  // "Choose a folder to continue!"
    | NoTimeline                                // "For aging mode the timeline mast be set!"
    | Removed(folder: string, devices: seq<string>)  // "... were DELETED ..."

  /** One removal message per folder that lost devices, in folder order. */
  function Notices(matched: Folders): seq<Notice>
  {
    if matched == [] then []
    else
      var last := matched[|matched| - 1];
      var gone := Failing(last.1);
      Notices(matched[..|matched| - 1]) + (if gone == [] then [] else [Removed(last.0, gone)])
  }

  /** Each message names a folder that lost devices and lists exactly the
      devices it lost; every such folder has its message. */
  lemma NoticesMeaning(matched: Folders)
    ensures forall n :: n in Notices(matched) <==>
      exists i :: 0 <= i < |matched| && Failing(matched[i].1) != [] && n == Removed(matched[i].0, Failing(matched[i].1))
  {
    NoticesSound(matched);
    NoticesComplete(matched);
  }

  /** Every message is a folder's removal message. */
  lemma {:induction false} NoticesSound(matched: Folders)
    ensures forall n :: n in Notices(matched) ==>
      exists i :: 0 <= i < |matched| && Failing(matched[i].1) != [] && n == Removed(matched[i].0, Failing(matched[i].1))
  {
    if matched != [] {
      var k := |matched| - 1;
      var init := matched[..k];
      var gone := Failing(matched[k].1);
      var tail := if gone == [] then [] else [Removed(matched[k].0, gone)];
      assert Notices(matched) == Notices(init) + tail;
      NoticesSound(init);
      forall n | n in Notices(matched)
        ensures exists i :: 0 <= i < |matched| && Failing(matched[i].1) != [] && n == Removed(matched[i].0, Failing(matched[i].1))
      {
        if n in Notices(init) {
          var i :| 0 <= i < |init| && Failing(init[i].1) != [] && n == Removed(init[i].0, Failing(init[i].1));
          assert matched[i] == init[i];
        } else {
          assert n in tail;
          assert Failing(matched[k].1) != [] && n == Removed(matched[k].0, Failing(matched[k].1));
        }
      }
    }
  }

  /** Every folder that lost devices has its message. */
  lemma {:induction false} NoticesComplete(matched: Folders)
    ensures forall i :: 0 <= i < |matched| && Failing(matched[i].1) != [] ==>
      Removed(matched[i].0, Failing(matched[i].1)) in Notices(matched)
  {
    if matched != [] {
      var k := |matched| - 1;
      var init := matched[..k];
      var gone := Failing(matched[k].1);
      var tail := if gone == [] then [] else [Removed(matched[k].0, gone)];
      assert Notices(matched) == Notices(init) + tail;
      NoticesComplete(init);
      forall i | 0 <= i < |matched| && Failing(matched[i].1) != []
        ensures Removed(matched[i].0, Failing(matched[i].1)) in Notices(matched)
      {
        if i < k {
          assert init[i] == matched[i];
        } else {
          assert Removed(matched[i].0, Failing(matched[i].1)) in tail;
        }
      }
    }
  }

  /** After the check every remaining device has one of the two pairs, the
      folders keep their names and order, and no device that has a pair is
      removed. */
  lemma CheckedMeaning(matched: Folders)
    ensures |Checked(matched)| == |matched|
    ensures forall i :: 0 <= i < |matched| ==> Checked(matched)[i].0 == matched[i].0
    ensures forall i, e :: 0 <= i < |matched| && e in Checked(matched)[i].1 ==> HasPair(e.1)
    ensures forall i, e :: 0 <= i < |matched| && e in matched[i].1 && HasPair(e.1) ==> e in Checked(matched)[i].1
  {
    forall i | 0 <= i < |matched| {
      KeptMeaning(matched[i].1);
    }
  }

  /** The check removes devices only: the calculation's requirements
      that hold of every device still hold of every device kept. */
  lemma KeptLit(matched: Folders)
    ensures forall i :: 0 <= i < |matched| && IV.FolderLit(matched[i].1) ==> IV.FolderLit(Kept(matched[i].1))
  {
    forall i | 0 <= i < |matched| && IV.FolderLit(matched[i].1)
      ensures IV.FolderLit(Kept(matched[i].1))
    {
      KeptMeaning(matched[i].1);
      forall j | 0 <= j < |Kept(matched[i].1)|
        ensures IV.Lit(Kept(matched[i].1)[j].1)
      {
        var e := Kept(matched[i].1)[j];
        assert e in Kept(matched[i].1);
        var m :| 0 <= m < |matched[i].1| && matched[i].1[m] == e;
      }
    }
  }

  /** What `final_output` may be given: dictionaries with distinct keys on
      which the calculation is defined. */
  predicate Checkable(matched: Folders)
  {
    (forall i :: 0 <= i < |matched| ==> Valid(matched[i].1)) && IV.AllLit(matched)
  }

  // ---------------------------------------------------------------------
  // The stages after the check, as the code evidently intends them

  /** The stages of `final_output`, in the order they are written. */
  datatype Stage = Parameters | FirstFilter | SecondFilter | Merging | KeySorting | Reporting

  function Rank(s: Stage): nat
  {
    match s
    case Parameters => 0
    case FirstFilter => 1
    case SecondFilter => 2
    case Merging => 3
    case KeySorting => 4
    case Reporting => 5
  }

  /** What each stage does to the folders, and the report it writes (given
      the `sorted` flag). */
  datatype Stages = Stages(
    calculate: Folders -> Result<Folders>,
    filter1: Folders -> Result<Folders>,
    filter2: Folders -> Result<Folders>,
    merge: Folders -> Result<Folders>,
    sortKeys: Folders -> Folders,
    report: (Folders, bool) -> Result<()>)

  /** The stages run so far and what the last one returned. */
  datatype Progress = Progress(trace: seq<Stage>, data: Result<Folders>)

  /** One stage more: run when switched on and nothing failed before. */
  function Apply(p: Progress, stage: Stage, on: bool, f: Folders -> Result<Folders>): Progress
  {
    if p.data.Err? || !on then p else Progress(p.trace + [stage], f(p.data.value))
  }

  /** A finished run: the stages that ran, the outcome and `self.sorted`. */
  datatype Run = Run(trace: seq<Stage>, result: Result<()>, sorted: bool)

  /** The stages from line 379 on, each given what the one before returned:
      parameters; the first filter when on and a pixel sorter exists; the
      second filter when on; merging, after which `sorted` is set, when a
      sorter exists; sorting the inner keys; the report. The first error
      ends the run. */
  function Pipeline(data: Folders, filter1: bool, filter2: bool, sorter: bool, sorted: bool, st: Stages): Run
  {
    var p3 := Early(data, filter1, filter2, sorter, st);
    var now := sorted || (sorter && p3.data.Ok?);
    if p3.data.Err? then Run(p3.trace, Err(p3.data.error), now)
    else Run(p3.trace + [KeySorting, Reporting], st.report(st.sortKeys(p3.data.value), now), now)
  }

  /** The stages up to merging. */
  function Early(data: Folders, filter1: bool, filter2: bool, sorter: bool, st: Stages): Progress
  {
    var p0 := Progress([Parameters], st.calculate(data));
    var p1 := Apply(p0, FirstFilter, filter1 && sorter, st.filter1);
    var p2 := Apply(p1, SecondFilter, filter2, st.filter2);
    Apply(p2, Merging, sorter, st.merge)
  }

  /** Stages in strictly increasing order. */
  predicate Ordered(t: seq<Stage>)
  {
    forall a, b :: 0 <= a < b < |t| ==> Rank(t[a]) < Rank(t[b])
  }

  lemma ApplyOrdered(p: Progress, stage: Stage, on: bool, f: Folders -> Result<Folders>)
    requires Ordered(p.trace) && forall s :: s in p.trace ==> Rank(s) < Rank(stage)
    ensures Ordered(Apply(p, stage, on, f).trace)
    ensures forall s :: s in Apply(p, stage, on, f).trace ==> Rank(s) <= Rank(stage)
    ensures Apply(p, stage, on, f).trace[..|p.trace|] == p.trace
  {
    var q := Apply(p, stage, on, f);
    if q != p {
      forall a, b | 0 <= a < b < |q.trace| ensures Rank(q.trace[a]) < Rank(q.trace[b]) {
        if b == |p.trace| {
          assert q.trace[a] == p.trace[a] && p.trace[a] in p.trace;
        } else {
          assert q.trace[a] == p.trace[a] && q.trace[b] == p.trace[b];
        }
      }
    }
  }

  /** The two stages that cannot fail, after stages ranked below them. */
  lemma TailOrdered(t: seq<Stage>)
    requires Ordered(t) && forall s :: s in t ==> Rank(s) < Rank(KeySorting)
    ensures Ordered(t + [KeySorting, Reporting])
  {
    var u := t + [KeySorting, Reporting];
    forall a, b | 0 <= a < b < |u| ensures Rank(u[a]) < Rank(u[b]) {
      if a < |t| {
        assert u[a] == t[a] && t[a] in t;
        if b < |t| {
          assert u[b] == t[b];
        }
      }
    }
  }

  /** The stages run in the written order, starting with the parameters;
      the report, when it runs, runs last. */
  lemma PipelineOrder(data: Folders, filter1: bool, filter2: bool, sorter: bool, sorted: bool, st: Stages)
    ensures var run := Pipeline(data, filter1, filter2, sorter, sorted, st);
      Ordered(run.trace) && |run.trace| >= 1 && run.trace[0] == Parameters
      && (Reporting in run.trace ==> run.trace[|run.trace| - 1] == Reporting)
  {
    var p3 := Early(data, filter1, filter2, sorter, st);
    EarlyOrdered(data, filter1, filter2, sorter, st);
    if p3.data.Ok? {
      TailOrdered(p3.trace);
    }
  }

  /** The stages up to merging run in order, parameters first. */
  lemma EarlyOrdered(data: Folders, filter1: bool, filter2: bool, sorter: bool, st: Stages)
    ensures var t := Early(data, filter1, filter2, sorter, st).trace;
      Ordered(t) && |t| >= 1 && t[0] == Parameters && forall s :: s in t ==> Rank(s) <= Rank(Merging)
  {
    var p0 := Progress([Parameters], st.calculate(data));
    var p1 := Apply(p0, FirstFilter, filter1 && sorter, st.filter1);
    var p2 := Apply(p1, SecondFilter, filter2, st.filter2);
    ApplyOrdered(p0, FirstFilter, filter1 && sorter, st.filter1);
    ApplyOrdered(p1, SecondFilter, filter2, st.filter2);
    ApplyOrdered(p2, Merging, sorter, st.merge);
  }

  /** A run that ends well ran each optional stage exactly when it is
      switched on, sorted the keys, wrote the report, and left `sorted` set
      exactly when it was set before or a sorter exists. */
  lemma PipelineStages(data: Folders, filter1: bool, filter2: bool, sorter: bool, sorted: bool, st: Stages)
    requires Pipeline(data, filter1, filter2, sorter, sorted, st).result.Ok?
    ensures var run := Pipeline(data, filter1, filter2, sorter, sorted, st);
      (FirstFilter in run.trace <==> filter1 && sorter)
      && (SecondFilter in run.trace <==> filter2)
      && (Merging in run.trace <==> sorter)
      && KeySorting in run.trace && Reporting in run.trace
      && run.sorted == (sorted || sorter)
  {
  }

  /** When every stage succeeds on whatever it is given, the report is
      written; when the calculation fails, nothing after it runs. */
  lemma PipelineReaches(data: Folders, filter1: bool, filter2: bool, sorter: bool, sorted: bool, st: Stages)
    ensures (forall d :: st.calculate(d).Ok? && st.filter1(d).Ok? && st.filter2(d).Ok? && st.merge(d).Ok?)
      ==> Reporting in Pipeline(data, filter1, filter2, sorter, sorted, st).trace
    ensures st.calculate(data).Err? ==>
      Pipeline(data, filter1, filter2, sorter, sorted, st) == Run([Parameters], Err(st.calculate(data).error), sorted)
  {
  }

  // ---------------------------------------------------------------------
  // The window

  /** What looking for the timeline yields: whether auto-detection in the
      chosen directory found one, the file dialog's answer ("" when
      cancelled), and whether reading that file gave a table. */
  datatype TimelineLookup = TimelineLookup(auto: bool, path: string, read: bool)

  /** `IVProcessingMainClass`: the state `final_output` and the settings
      panels read. `pixelSorter` is the pixel sorter window's grouping of
      pixels by substrate, `None` while there is no such window;
      `fileDirectory` is `None` for Python's `None`; `timeline` says
      whether `timeline_df` was read; `dataTemp` is `data_temp`, the
      detector's devices per folder once the listing ran detection. */
  class IvMainFrame {
    var sorted: bool
    var stat: string
    var pixelSorter: Option<Dict<string, seq<string>>>
    var allUniqueDevices: Option<seq<string>>
    var fileDirectory: Option<string>
    var timeline: bool
    var autoAttempted: bool
    var dataTemp: Option<Dict<string, DF.Folder>>
    var addedIv: Dict<string, DF.Folder>
    var aging: bool
    var iaa: bool
    var openWb: bool
    var colorWb: bool
    var dumpJson: bool
    var filter1: bool
    var filter2: bool

    function Current(): Settings
      reads this
    {
      Settings(iaa, openWb, colorWb, dumpJson, filter1, filter2, stat)
    }

    /** The variables `__init__` sets before building its widgets. */
    constructor ()
      ensures !sorted && stat == "std_dev" && pixelSorter.None? && allUniqueDevices.None?
      ensures fileDirectory == Some("") && !timeline && !autoAttempted && dataTemp.None? && addedIv == [] && !aging
      ensures iaa && openWb && colorWb && !dumpJson && !filter1 && !filter2
    {
      sorted := false;
      stat := "std_dev";
      pixelSorter := None;
      allUniqueDevices := None;
      fileDirectory := Some("");
      timeline := false;
      autoAttempted := false;
      dataTemp := None;
      addedIv := [];
      aging := false;
      iaa := true;
      openWb := true;
      colorWb := true;
      dumpJson := false;
      filter1, filter2 := false, false;
    }

    /** `ask_directory` with the dialog's answer `chosen` ("" when it was
        cancelled): the directory is always a string, so `file_directory`
        is never `None`. A chosen directory is listed afresh: the pixel
        sorter is dropped and `added_iv` is refilled with `listed`, what
        `process_directory` collects from the disk. When the root listing
        got through (`complete`; a detected folder nested one level too
        deep ends it early) `detect_pixels` runs and its result becomes
        `data_temp` (the entries it is then shown in are
        `Treeviews.TableFrames.ConstructEntries`); an exception there ends
        the call. Then, in aging mode and unless auto-detection was already
        attempted, the timeline is looked for. */
    method AskDirectory(chosen: string, listed: Dict<string, DF.Folder>, complete: bool,
                        ratio: (string, string) -> int, look: TimelineLookup) returns (r: Result<()>)
      requires forall e :: e in listed ==> DF.SweepsValid(e.1)
      modifies this`fileDirectory, this`pixelSorter, this`addedIv, this`allUniqueDevices, this`dataTemp
      modifies this`timeline, this`autoAttempted
      ensures fileDirectory == Some(chosen)
      ensures chosen == "" ==>
        r == Ok(()) && pixelSorter == old(pixelSorter) && addedIv == old(addedIv) && dataTemp == old(dataTemp)
        && allUniqueDevices == old(allUniqueDevices) && timeline == old(timeline) && autoAttempted == old(autoAttempted)
      ensures chosen != "" ==> pixelSorter.None?
      ensures chosen != "" && !complete ==>
        addedIv == listed && dataTemp == old(dataTemp) && allUniqueDevices == old(allUniqueDevices)
      ensures var out := DF.FilterAll(listed, |listed|, ratio);
        chosen != "" && complete && out.Err? ==>
          r == Err(out.error) && allUniqueDevices.None? && dataTemp == old(dataTemp)
          && timeline == old(timeline) && autoAttempted == old(autoAttempted)
      ensures var out := DF.FilterAll(listed, |listed|, ratio);
        chosen != "" && complete && out.Ok? ==>
          addedIv == out.value.1 && dataTemp == Some(DF.AdjustKeys(out.value.0))
          && allUniqueDevices == Some(Dedup(AllNames(dataTemp.value)))
      ensures chosen != "" && r.Ok? ==>
        if aging && !old(autoAttempted) then
          timeline == (look.auto || (look.path != "" && look.read)) && autoAttempted == look.auto
        else timeline == old(timeline) && autoAttempted == old(autoAttempted)
    {
      r := Ok(());
      fileDirectory := Some(chosen);
      if chosen == "" {
        return;
      }
      r := ListFiles(listed, complete, ratio);
      if r.Ok? && !autoAttempted && aging {
        SpecifyTimeline(look);
      }
    }

    /** `list_files` and the root call of `process_directory` for a chosen
        directory: the pixel sorter goes, `added_iv` becomes the listing
        and, when the listing got through, `detect_pixels` fills
        `data_temp`. */
    method ListFiles(listed: Dict<string, DF.Folder>, complete: bool, ratio: (string, string) -> int)
      returns (r: Result<()>)
      requires forall e :: e in listed ==> DF.SweepsValid(e.1)
      modifies this`pixelSorter, this`addedIv, this`allUniqueDevices, this`dataTemp
      ensures pixelSorter.None?
      ensures !complete ==>
        r == Ok(()) && addedIv == listed && dataTemp == old(dataTemp) && allUniqueDevices == old(allUniqueDevices)
      ensures var out := DF.FilterAll(listed, |listed|, ratio);
        complete && out.Err? ==> r == Err(out.error) && allUniqueDevices.None? && dataTemp == old(dataTemp)
      ensures var out := DF.FilterAll(listed, |listed|, ratio);
        complete && out.Ok? ==>
          r == Ok(()) && addedIv == out.value.1 && dataTemp == Some(DF.AdjustKeys(out.value.0))
          && allUniqueDevices == Some(Dedup(AllNames(dataTemp.value)))
    {
      r := Ok(());
      pixelSorter := None;
      addedIv := listed;
      if complete {
        var found := DetectPixels(ratio);
        if found.Err? {
          return Err(found.error);
        }
        dataTemp := Some(found.value);
      }
    }

    /** `specify_timeline`, `look` giving what the auto-detection, the file
        dialog and the reading of the chosen file yield. Auto-detection runs
        once per attempt; when it finds nothing, or on the next click, the
        user is asked for a file. */
    method SpecifyTimeline(look: TimelineLookup)
      modifies this`timeline, this`autoAttempted
      ensures var tried := !old(autoAttempted) && fileDirectory != Some("");
        if tried && look.auto then timeline && autoAttempted
        else
          !autoAttempted
          && timeline == if look.path != "" then look.read else if tried then false else old(timeline)
    {
      if !autoAttempted && fileDirectory != Some("") {
        timeline := look.auto;
        autoAttempted := true;
        if look.auto {
          return;
        }
      }
      autoAttempted := false;
      if look.path == "" {
        return;
      }
      timeline := look.read;
    }

    /** `activate_setting`. Choosing a statistic sets `stat` and then
        relabels the pixel sorter's button, which fails when there is no
        pixel sorter. */
    method ActivateSetting(setting: string, checked: bool) returns (r: Result<()>)
      modifies this`iaa, this`openWb, this`colorWb, this`dumpJson, this`filter1, this`filter2, this`stat
      ensures Current() == Activated(old(Current()), setting, checked)
      ensures r == if setting in STATS && pixelSorter.None? then Err(AttributeError("error_metric_button")) else Ok(())
    {
      r := Ok(());
      match Branch(setting)
      case 0 => iaa := checked;
      case 1 => openWb := checked;
      case 2 => colorWb := checked;
      case 3 => dumpJson := checked;
      case 4 => filter1 := checked;
      case 5 => filter2 := checked;
      case 6 =>
        stat := setting;
        if pixelSorter.None? {
          r := Err(AttributeError("error_metric_button"));
        }
      case _ =>
    }

    /** The names of one folder's devices added to `unique`, `seen` being
        the names met before. */
    static method AddNames(unique: seq<string>, ghost seen: seq<string>, devs: DF.Folder) returns (more: seq<string>)
      requires unique == Dedup(seen)
      ensures more == Dedup(seen + Keys(devs))
    {
      more := unique;
      assert seen + Keys(devs)[..0] == seen;
      for j := 0 to |devs|
        invariant more == Dedup(seen + Keys(devs)[..j])
      {
        AddNameStep(seen, devs, j);
        if devs[j].0 !in more {
          more := more + [devs[j].0];
        }
      }
      assert Keys(devs)[..|devs|] == Keys(devs);
    }

    /** `detect_pixels`: runs the device detector on `added_iv` (which the
        detector changes in place, being handed the same dictionary), then
        collects every device name of its result once. */
    method DetectPixels(ratio: (string, string) -> int) returns (r: Result<Dict<string, DF.Folder>>)
      requires forall e :: e in addedIv ==> DF.SweepsValid(e.1)
      modifies this`addedIv, this`allUniqueDevices
      ensures var out := DF.FilterAll(old(addedIv), |old(addedIv)|, ratio);
        out.Err? ==> r == Err(out.error) && allUniqueDevices.None?
      ensures var out := DF.FilterAll(old(addedIv), |old(addedIv)|, ratio);
        out.Ok? ==>
          r == Ok(DF.AdjustKeys(out.value.0)) && addedIv == out.value.1
          && allUniqueDevices == Some(Dedup(AllNames(r.value)))
    {
      allUniqueDevices := None;
      var detector := new DF.DeviceDetector(addedIv);
      var found := detector.DetectAndFilter(ratio);
      addedIv := detector.data;
      if found.Err? {
        return Err(found.error);
      }
      var unique := UniqueNames(found.value.0);
      allUniqueDevices := Some(unique);
      r := Ok(found.value.0);
    }

    /** The loops of `detect_pixels` over the detected folders: each name
        not yet in the set is added. */
    static method UniqueNames(detected: Dict<string, DF.Folder>) returns (unique: seq<string>)
      ensures unique == Dedup(AllNames(detected))
    {
      unique := [];
      var i := 0;
      while i < |detected|
        invariant 0 <= i <= |detected|
        invariant unique == Dedup(AllNames(detected[..i]))
      {
        assert detected[..i + 1][..i] == detected[..i];
        unique := AddNames(unique, AllNames(detected[..i]), detected[i].1);
        i := i + 1;
      }
      assert detected[..|detected|] == detected;
    }

    /** The names of the devices of one folder that lack a pair. */
    static method FailingDevices(devices: Dict<string, Record>) returns (toRemove: seq<string>)
      ensures toRemove == Failing(devices)
    {
      toRemove := [];
      var j := 0;
      while j < |devices|
        invariant 0 <= j <= |devices|
        invariant toRemove == Failing(devices[..j])
      {
        assert devices[..j + 1] == devices[..j] + [devices[j]];
        FailingConcat(devices[..j], [devices[j]]);
        if !HasPair(devices[j].1) {
          toRemove := toRemove + [devices[j].0];
        }
        j := j + 1;
      }
      assert devices[..|devices|] == devices;
    }

    /** `del matched[date][device]` for each listed device. */
    static method DeleteDevices(devices: Dict<string, Record>, toRemove: seq<string>) returns (left: Dict<string, Record>)
      ensures left == Drop(devices, toRemove)
    {
      DropNothing(devices);
      left := devices;
      var k := 0;
      while k < |toRemove|
        invariant 0 <= k <= |toRemove|
        invariant left == Drop(devices, toRemove[..k])
      {
        DropMore(devices, toRemove[..k], toRemove[k]);
        assert toRemove[..k + 1] == toRemove[..k] + [toRemove[k]];
        left := Remove(left, toRemove[k]);
        k := k + 1;
      }
      assert toRemove[..|toRemove|] == toRemove;
    }

    /** The pair check of `final_output`: each folder in turn loses its
        devices without a pair, and a message lists them. */
    static method CheckPairs(matched: Folders) returns (checked: Folders, shown: seq<Notice>)
      requires forall i :: 0 <= i < |matched| ==> Valid(matched[i].1)
      ensures checked == Checked(matched)
      ensures shown == Notices(matched)
    {
      checked := matched;
      shown := [];
      var i := 0;
      while i < |checked|
        invariant 0 <= i <= |checked| == |matched|
        invariant forall k :: 0 <= k < i ==> checked[k] == (matched[k].0, Kept(matched[k].1))
        invariant forall k :: i <= k < |checked| ==> checked[k] == matched[k]
        invariant shown == Notices(matched[..i])
      {
        var date, devices := checked[i].0, checked[i].1;
        var toRemove := FailingDevices(devices);
        var left := DeleteDevices(devices, toRemove);
        DropFailing(devices);
        checked := checked[i := (date, left)];
        assert matched[..i + 1][..i] == matched[..i];
        if toRemove != [] {
          shown := shown + [Removed(date, toRemove)];
        }
        i := i + 1;
      }
      assert matched[..|matched|] == matched;
    }

    /** `final_output(state)`, `found` being what `devices_by_folder`
        returns for the chosen items. As written it stops right after the
        calculation: `CalculateIVParameters` has no `return_data`. */
    method FinalOutput(state: string, found: Result<Option<Folders>>, meter: IV.Meter)
      returns (shown: seq<Notice>, r: Result<()>)
      requires IV.Meters(meter)
      requires found.Ok? && found.value.Some? ==> Checkable(found.value.value)
      ensures fileDirectory.None? ==> shown == [NoFolder] && r == Ok(())
      ensures fileDirectory.Some? && state == "All" && aging && !timeline ==> shown == [NoTimeline] && r == Ok(())
      ensures fileDirectory.Some? && !(state == "All" && aging && !timeline) ==>
        if found.Err? then shown == [] && r == Err(found.error)
        else if found.value.None? then shown == [] && r == Ok(())
        else
          var m := found.value.value;
          var c := IV.Calculation(IV.Fresh, Checked(m), meter);
          shown == Notices(m) && r == (if c.Err? then Err(c.error) else Err(AttributeError("return_data")))
      ensures fileDirectory.Some? && !(state == "All" && aging && !timeline) && found.Ok? && found.value.Some? ==> r.Err?
    {
      if fileDirectory.None? {
        return [NoFolder], Ok(());
      }
      if state == "All" && aging && !timeline {
        return [NoTimeline], Ok(());
      }
      if found.Err? {
        return [], Err(found.error);
      }
      if found.value.None? {
        return [], Ok(());
      }
      var matched;
      matched, shown := CheckPairs(found.value.value);
      var calculator := new IV.CalculateIvParameters(matched);
      var err := calculator.PerformCalculation(meter);
      if err.Some? {
        return shown, Err(err.value);
      }
      r := Err(AttributeError("return_data"));
    }
  }
}
