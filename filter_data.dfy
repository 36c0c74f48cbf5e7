/** The two pixel filters of JV_plotter_GUI/Filter_data.py: `filter1`, which
    drops dead pixels of a substrate, and `updated_filter2`, which drops
    every pixel that was dead in one measurement and alive in a later one.
    `filter2` gathers the same flags but then reads a name that is not
    defined. */
module FilterData {
  import opened Wrappers
  import opened Dicts
  import opened Records

  /** Below this Average efficiency a pixel counts as dead. */
  const DEAD_LIMIT := 0.01

  // ---------------------------------------------------------------------
  // `updated_filter2`

  /** `rec['Parameters']['Average'].get('Efficiency (%)')` when the record has
      'Parameters' holding an 'Average' table, `None` otherwise. */
  function AverageEfficiency(rec: Record): Option<real>
  {
    match rec.parameters
    case None => None
    case Some(p) =>
      match Lookup(p, "Average")
      case None => None
      case Some(avg) => Lookup(avg, EFFICIENCY)
  }

  /** The (pixel, efficiency) readings of one folder, in pixel order. */
  function FolderReadings(devs: Dict<string, Record>): seq<(string, real)>
  {
    if devs == [] then []
    else
      var rest := FolderReadings(devs[..|devs| - 1]);
      match AverageEfficiency(devs[|devs| - 1].1)
      case None => rest
      case Some(e) => rest + [(devs[|devs| - 1].0, e)]
  }

  /** All readings, folder after folder. */
  function Readings(data: Folders): seq<(string, real)>
  {
    if data == [] then [] else Readings(data[..|data| - 1]) + FolderReadings(data[|data| - 1].1)
  }

  /** The efficiencies read for `pixel`, in reading order. */
  function Series(rs: seq<(string, real)>, pixel: string): seq<real>
  {
    if rs == [] then []
    else Series(rs[..|rs| - 1], pixel) + (if rs[|rs| - 1].0 == pixel then [rs[|rs| - 1].1] else [])
  }

  /** One append to `pixel_efficiencies`. */
  function Append(acc: Dict<string, seq<real>>, r: (string, real)): Dict<string, seq<real>>
  {
    match Lookup(acc, r.0)
    case None => Put(acc, r.0, [r.1])
    case Some(s) => Put(acc, r.0, s + [r.1])
  }

  /** `pixel_efficiencies` after the readings `rs`. */
  function Accumulate(rs: seq<(string, real)>): Dict<string, seq<real>>
  {
    if rs == [] then [] else Append(Accumulate(rs[..|rs| - 1]), rs[|rs| - 1])
  }

  /** Each pixel's list holds exactly its readings in order, and a pixel
      has a list exactly when it has a reading. */
  lemma {:induction false} AccumulateSeries(rs: seq<(string, real)>, pixel: string)
    ensures Valid(Accumulate(rs))
    ensures Lookup(Accumulate(rs), pixel) == if Series(rs, pixel) == [] then None else Some(Series(rs, pixel))
  {
    if rs != [] {
      var prev, r := rs[..|rs| - 1], rs[|rs| - 1];
      AccumulateSeries(prev, pixel);
      AccumulateSeries(prev, r.0);
      var acc := Accumulate(prev);
      var v := Series(prev, r.0) + [r.1];
      AppendIs(acc, r, Series(prev, r.0));
      PutValid(acc, r.0, v);
      PutLookup(acc, r.0, v, pixel);
      SeriesSnoc(prev, r, pixel);
    }
  }

  lemma AppendIs(acc: Dict<string, seq<real>>, r: (string, real), s: seq<real>)
    requires Lookup(acc, r.0) == if s == [] then None else Some(s)
    ensures Append(acc, r) == Put(acc, r.0, s + [r.1])
  {
    if s == [] {
      assert s + [r.1] == [r.1];
    }
  }

  lemma SeriesSnoc(prev: seq<(string, real)>, r: (string, real), pixel: string)
    ensures Series(prev + [r], pixel) == if r.0 == pixel then Series(prev, pixel) + [r.1] else Series(prev, pixel)
  {
    assert (prev + [r])[..|prev|] == prev;
  }

  /** Some reading below the limit is followed by one at or above it. */
  predicate DeadThenAlive(effs: seq<real>)
  {
    exists i, j :: 0 <= i < j < |effs| && effs[i] < DEAD_LIMIT && DEAD_LIMIT <= effs[j]
  }

  /** The `was_dead` scan over one pixel's efficiencies. */
  method Revives(effs: seq<real>) returns (flag: bool)
    ensures flag == DeadThenAlive(effs)
  {
    var wasDead := false;
    var k := 0;
    while k < |effs|
      invariant 0 <= k <= |effs|
      invariant wasDead <==> exists i :: 0 <= i < k && effs[i] < DEAD_LIMIT
      invariant !exists i, j :: 0 <= i < j < k && effs[i] < DEAD_LIMIT && DEAD_LIMIT <= effs[j]
    {
      if effs[k] < DEAD_LIMIT {
        wasDead := true;
      } else if wasDead {
        var i :| 0 <= i < k && effs[i] < DEAD_LIMIT;
        assert 0 <= i < k < |effs| && effs[i] < DEAD_LIMIT && DEAD_LIMIT <= effs[k];
        return true;
      }
      k := k + 1;
    }
    return false;
  }

  /** The flagged pixels of `pixel_efficiencies`, in its key order. */
  function Flagged(acc: Dict<string, seq<real>>): seq<string>
  {
    if acc == [] then []
    else Flagged(acc[..|acc| - 1]) + (if DeadThenAlive(acc[|acc| - 1].1) then [acc[|acc| - 1].0] else [])
  }

  /** A pixel is flagged exactly when its list shows the pattern; no
      pixel is flagged twice. */
  lemma {:induction false} FlaggedMeaning(acc: Dict<string, seq<real>>, pixel: string)
    requires Valid(acc)
    ensures Distinct(Flagged(acc))
    ensures pixel in Flagged(acc) <==> Lookup(acc, pixel).Some? && DeadThenAlive(Lookup(acc, pixel).value)
  {
    if acc != [] {
      var n := |acc|;
      assert Valid(acc[..n - 1]) by {
        assert forall i :: 0 <= i < n - 1 ==> Keys(acc[..n - 1])[i] == Keys(acc)[i];
      }
      FlaggedMeaning(acc[..n - 1], pixel);
      FlaggedMeaning(acc[..n - 1], acc[n - 1].0);
      LastKeyFresh(acc, n);
      LookupPrefix(acc, n, pixel);
      PrefixAll(acc);
    }
  }

  /** The names `updated_filter2` deletes, as a function of the data. */
  function Revived(data: Folders): seq<string>
  {
    Flagged(Accumulate(Readings(data)))
  }

  /** Exactly the pixels whose efficiencies, in folder order, were below
      0.01 once and at or above it later are deleted, each named once. */
  lemma RevivedMeaning(data: Folders, pixel: string)
    ensures Distinct(Revived(data))
    ensures pixel in Revived(data) <==> DeadThenAlive(Series(Readings(data), pixel))
  {
    AccumulateSeries(Readings(data), pixel);
    FlaggedMeaning(Accumulate(Readings(data)), pixel);
  }

  /** The folder with every entry named in `ps` dropped. */
  function Purge(devs: Dict<string, Record>, ps: seq<string>): Dict<string, Record>
  {
    if devs == [] then [] else (if devs[0].0 in ps then [] else [devs[0]]) + Purge(devs[1..], ps)
  }

  /** An entry stays exactly when its name is not in `ps`, and the survivors
      keep their order. */
  lemma {:induction false} PurgeKeeps(devs: Dict<string, Record>, ps: seq<string>)
    ensures forall e :: e in Purge(devs, ps) <==> e in devs && e.0 !in ps
    ensures ps == [] ==> Purge(devs, ps) == devs
  {
    if devs != [] {
      PurgeKeeps(devs[1..], ps);
      assert devs == [devs[0]] + devs[1..];
    }
  }

  /** Deleting one more name from a purged folder. */
  lemma {:induction false} PurgeMore(devs: Dict<string, Record>, ps: seq<string>, p: string)
    ensures Remove(Purge(devs, ps), p) == Purge(devs, ps + [p])
  {
    if devs != [] {
      PurgeMore(devs[1..], ps, p);
      var rest := Purge(devs[1..], ps);
      var e := devs[0];
      assert e.0 in ps + [p] <==> e.0 in ps || e.0 == p;
      if e.0 in ps {
        assert Purge(devs, ps) == rest;
        assert Purge(devs, ps + [p]) == Purge(devs[1..], ps + [p]);
      } else {
        assert Purge(devs, ps) == [e] + rest;
        assert ([e] + rest)[0] == e && ([e] + rest)[1..] == rest;
        if e.0 == p {
          assert Purge(devs, ps + [p]) == Purge(devs[1..], ps + [p]);
        } else {
          assert Purge(devs, ps + [p]) == [e] + Purge(devs[1..], ps + [p]);
        }
      }
    }
  }

  lemma AccumulateSnoc(rs: seq<(string, real)>, r: (string, real))
    ensures Accumulate(rs + [r]) == Append(Accumulate(rs), r)
  {
    assert (rs + [r])[..|rs|] == rs;
  }

  /** The efficiency gathering loop of one folder, continuing the readings
      `rs` gathered before it. */
  method GatherFolder(ghost rs: seq<(string, real)>, acc: Dict<string, seq<real>>, devs: Dict<string, Record>)
    returns (out: Dict<string, seq<real>>)
    requires acc == Accumulate(rs)
    ensures out == Accumulate(rs + FolderReadings(devs))
  {
    out := acc;
    var j := 0;
    assert rs + FolderReadings(devs[..0]) == rs;
    while j < |devs|
      invariant 0 <= j <= |devs|
      invariant out == Accumulate(rs + FolderReadings(devs[..j]))
    {
      var name, rec := devs[j].0, devs[j].1;
      ghost var before := rs + FolderReadings(devs[..j]);
      ReadingsSnoc(rs, devs, j);
      if rec.parameters.Some? && Has(rec.parameters.value, "Average") {
        var e := Lookup(Get(rec.parameters.value, "Average"), EFFICIENCY);
        assert AverageEfficiency(rec) == e;
        if e.Some? {
          AccumulateSnoc(before, (name, e.value));
          assert rs + FolderReadings(devs[..j + 1]) == before + [(name, e.value)];
          out := Append(out, (name, e.value));
        }
      } else {
        assert AverageEfficiency(rec).None?;
      }
      assert out == Accumulate(rs + FolderReadings(devs[..j + 1]));
      j := j + 1;
    }
    PrefixAll(devs);
  }

  /** The readings of one more entry of a folder, after the readings `rs`. */
  lemma ReadingsSnoc(rs: seq<(string, real)>, devs: Dict<string, Record>, j: nat)
    requires j < |devs|
    ensures AverageEfficiency(devs[j].1).None? ==> rs + FolderReadings(devs[..j + 1]) == rs + FolderReadings(devs[..j])
    ensures AverageEfficiency(devs[j].1).Some? ==>
      rs + FolderReadings(devs[..j + 1]) == (rs + FolderReadings(devs[..j])) + [(devs[j].0, AverageEfficiency(devs[j].1).value)]
  {
    assert devs[..j + 1][..j] == devs[..j];
  }

  /** The first loop of `updated_filter2`: every folder's readings. */
  method Gather(data: Folders) returns (acc: Dict<string, seq<real>>)
    ensures acc == Accumulate(Readings(data))
  {
    acc := [];
    var i := 0;
    while i < |data|
      invariant 0 <= i <= |data|
      invariant acc == Accumulate(Readings(data[..i]))
    {
      PrefixSnoc(data, i + 1);
      assert data[..i + 1][..i] == data[..i];
      acc := GatherFolder(Readings(data[..i]), acc, data[i].1);
      i := i + 1;
    }
    PrefixAll(data);
  }

  /** The second loop: the flagged pixels in key order. */
  method FlagRevived(acc: Dict<string, seq<real>>) returns (deleted: seq<string>)
    ensures deleted == Flagged(acc)
  {
    deleted := [];
    var k := 0;
    while k < |acc|
      invariant 0 <= k <= |acc|
      invariant deleted == Flagged(acc[..k])
    {
      var flag := Revives(acc[k].1);
      PrefixSnoc(acc, k + 1);
      assert acc[..k + 1][..k] == acc[..k];
      if flag {
        deleted := deleted + [acc[k].0];
      }
      k := k + 1;
    }
    PrefixAll(acc);
  }

  /** The third loop for one folder: `del` each flagged name it holds. */
  method PurgeFolder(devs: Dict<string, Record>, deleted: seq<string>) returns (kept: Dict<string, Record>)
    ensures kept == Purge(devs, deleted)
  {
    kept := devs;
    var d := 0;
    PurgeKeeps(devs, []);
    while d < |deleted|
      invariant 0 <= d <= |deleted|
      invariant kept == Purge(devs, deleted[..d])
    {
      PurgeMore(devs, deleted[..d], deleted[d]);
      PrefixSnoc(deleted, d + 1);
      if Has(kept, deleted[d]) {
        kept := Remove(kept, deleted[d]);
      } else {
        RemoveAbsent(kept, deleted[d]);
      }
      d := d + 1;
    }
    PrefixAll(deleted);
  }

  /** `updated_filter2(data)`: gathers each pixel's Average efficiency in
      folder order, flags the pixels that came back to life, and deletes
      them from every folder. The argument's own maps are changed in the
      source; here the result is returned. */
  method UpdatedFilter2(data: Folders) returns (out: Folders, deleted: seq<string>)
    ensures deleted == Revived(data)
    ensures |out| == |data| && forall i :: 0 <= i < |data| ==> out[i] == (data[i].0, Purge(data[i].1, deleted))
  {
    var acc := Gather(data);
    deleted := FlagRevived(acc);
    out := data;
    var i := 0;
    while i < |out|
      invariant 0 <= i <= |out| == |data|
      invariant forall m :: 0 <= m < i ==> out[m] == (data[m].0, Purge(data[m].1, deleted))
      invariant forall m :: i <= m < |out| ==> out[m] == data[m]
    {
      var kept := PurgeFolder(out[i].1, deleted);
      out := out[i := (out[i].0, kept)];
      i := i + 1;
    }
  }

  /** Removing a key the folder lacks changes nothing. */
  lemma {:induction false} RemoveAbsent<V>(d: Dict<string, V>, k: string)
    requires !Has(d, k)
    ensures Remove(d, k) == d
  {
    if d != [] {
      assert Keys(d) == [d[0].0] + Keys(d[1..]);
      RemoveAbsent(d[1..], k);
    }
  }

  // ---------------------------------------------------------------------
  // `filter1`

  /** The layout `filter1` indexes: folder, then substrate, then pixel. */
  type Nested = Dict<string, Dict<string, Dict<string, Record>>>

  /** `pixel_data['Parameters']['Average']['Efficiency (%)']`, with the
      KeyError of the first missing level. */
  function EfficiencyOf(rec: Record): (r: Result<real>)
    ensures r.Ok? <==> AverageEfficiency(rec).Some?
    ensures r.Ok? ==> AverageEfficiency(rec) == Some(r.value)
    ensures r.Err? ==> r.error.KeyError?
  {
    if rec.parameters.None? then Err(KeyError("Parameters"))
    else if !Has(rec.parameters.value, "Average") then Err(KeyError("Average"))
    else
      match Lookup(Get(rec.parameters.value, "Average"), EFFICIENCY)
      case None => Err(KeyError(EFFICIENCY))
      case Some(e) => Ok(e)
  }

  /** The dead pixels among the first `n` listed ones, in list order: those
      present under the substrate with an Average efficiency below 0.01. */
  function DeadPixels(pixels: Dict<string, Record>, listed: seq<string>, n: nat): (r: Result<seq<string>>)
    requires n <= |listed|
    ensures r.Err? ==> r.error.KeyError?
  {
    if n == 0 then Ok([])
    else
      var prev :- DeadPixels(pixels, listed, n - 1);
      match Lookup(pixels, listed[n - 1])
      case None => Ok(prev)
      case Some(rec) =>
        var e :- EfficiencyOf(rec);
        Ok(if e < DEAD_LIMIT then prev + [listed[n - 1]] else prev)
  }

  /** A pixel present under the substrate with an Average efficiency
      below the limit. */
  predicate IsDead(pixels: Dict<string, Record>, p: string)
  {
    Lookup(pixels, p).Some? && EfficiencyOf(Lookup(pixels, p).value).Ok? && EfficiencyOf(Lookup(pixels, p).value).value < DEAD_LIMIT
  }

  /** A pixel is reported dead exactly when it is listed, present and its
      efficiency is below the limit. */
  lemma {:induction false} DeadPixelsMeaning(pixels: Dict<string, Record>, listed: seq<string>, n: nat, p: string)
    requires n <= |listed| && DeadPixels(pixels, listed, n).Ok?
    ensures |DeadPixels(pixels, listed, n).value| <= n
    ensures p in DeadPixels(pixels, listed, n).value <==> p in listed[..n] && IsDead(pixels, p)
  {
    if n == 0 {
      assert DeadPixels(pixels, listed, n).value == [];
    } else {
      DeadStep(pixels, listed, n - 1);
      var prev, q := DeadPixels(pixels, listed, n - 1).value, listed[n - 1];
      DeadPixelsMeaning(pixels, listed, n - 1, p);
      assert p in DeadPixels(pixels, listed, n).value <==> p in prev || (p == q && IsDead(pixels, q));
      PrefixSnoc(listed, n);
      assert p in listed[..n] <==> p in listed[..n - 1] || p == q;
    }
  }

  /** A pass of the dead-pixel loop that succeeds follows one that did,
      and appends the listed pixel exactly when it is dead. */
  lemma DeadStep(pixels: Dict<string, Record>, listed: seq<string>, n: nat)
    requires n < |listed| && DeadPixels(pixels, listed, n + 1).Ok?
    ensures DeadPixels(pixels, listed, n).Ok?
    ensures DeadPixels(pixels, listed, n + 1).value ==
      if IsDead(pixels, listed[n]) then DeadPixels(pixels, listed, n).value + [listed[n]] else DeadPixels(pixels, listed, n).value
  {
  }

  /** `del pixels[p]` for each `p` of `ps` in turn: the KeyError of a name
      already gone. */
  function DeleteAll(pixels: Dict<string, Record>, ps: seq<string>, n: nat): (r: Result<Dict<string, Record>>)
    requires n <= |ps|
    ensures r.Err? ==> r.error.KeyError?
  {
    if n == 0 then Ok(pixels)
    else
      var prev :- DeleteAll(pixels, ps, n - 1);
      if Has(prev, ps[n - 1]) then Ok(Remove(prev, ps[n - 1])) else Err(KeyError(ps[n - 1]))
  }

  /** Deleting names once each leaves the other pixels. */
  lemma {:induction false} DeleteAllPurges(pixels: Dict<string, Record>, ps: seq<string>, n: nat)
    requires n <= |ps| && DeleteAll(pixels, ps, n).Ok?
    ensures DeleteAll(pixels, ps, n).value == Purge(pixels, ps[..n])
  {
    if n == 0 {
      PurgeKeeps(pixels, []);
    } else {
      DeleteAllPurges(pixels, ps, n - 1);
      PurgeMore(pixels, ps[..n - 1], ps[n - 1]);
      PrefixSnoc(ps, n);
    }
  }

  /** The error the all-dead branch runs into: it zeroes every field of the
      kept pixel, 'Parameters' included, and then iterates that 0. */
  const ZeroedParameters := AttributeError("'int' object has no attribute 'items'")

  /** One substrate with a list of more than one pixel. */
  function SubstrateFilter(pixels: Dict<string, Record>, listed: seq<string>): Result<Dict<string, Record>>
  {
    var dead :- DeadPixels(pixels, listed, |listed|);
    if |dead| == |listed| then Err(ZeroedParameters)
    else DeleteAll(pixels, dead, |dead|)
  }

  /** A substrate all of whose listed pixels are dead ends the filter with
      the AttributeError instead of keeping one zeroed pixel. */
  lemma AllDeadFails(pixels: Dict<string, Record>, listed: seq<string>)
    requires forall p :: p in listed ==> IsDead(pixels, p)
    ensures SubstrateFilter(pixels, listed) == Err(ZeroedParameters)
  {
    AllDead(pixels, listed, |listed|);
  }

  lemma {:induction false} AllDead(pixels: Dict<string, Record>, listed: seq<string>, n: nat)
    requires n <= |listed|
    requires forall p :: p in listed ==> IsDead(pixels, p)
    ensures DeadPixels(pixels, listed, n) == Ok(listed[..n])
  {
    if n == 0 {
      assert DeadPixels(pixels, listed, n) == Ok([]);
    } else {
      AllDead(pixels, listed, n - 1);
      DeadAppends(pixels, listed, n - 1, listed[..n - 1]);
      PrefixSnoc(listed, n);
    }
  }

  /** A dead listed pixel is appended to the dead ones before it. */
  lemma DeadAppends(pixels: Dict<string, Record>, listed: seq<string>, n: nat, dead: seq<string>)
    requires n < |listed| && DeadPixels(pixels, listed, n) == Ok(dead) && IsDead(pixels, listed[n])
    ensures DeadPixels(pixels, listed, n + 1) == Ok(dead + [listed[n]])
  {
  }

  /** Otherwise, with each dead pixel listed once, exactly the dead pixels
      go and every other pixel stays as it was. */
  lemma SomeAliveDeletesDead(pixels: Dict<string, Record>, listed: seq<string>, p: string, rec: Record)
    requires Distinct(listed)
    requires SubstrateFilter(pixels, listed).Ok?
    ensures var dead := DeadPixels(pixels, listed, |listed|).value;
      (p, rec) in SubstrateFilter(pixels, listed).value <==> (p, rec) in pixels && p !in dead
  {
    var dead := DeadPixels(pixels, listed, |listed|).value;
    DeleteAllPurges(pixels, dead, |dead|);
    PrefixAll(dead);
    PurgeKeeps(pixels, dead);
  }

  // The all-dead branch as the docstring of `filter1` describes it

  /** A direction table with every figure of merit 0. */
  predicate AllZero(p: Params)
  {
    forall j :: 0 <= j < |p| ==> p[j].1 == 0.0
  }

  /** `{p: 0 for p in v}`: the same figures, each set to 0. */
  function ZeroParams(p: Params): (r: Params)
    ensures Keys(r) == Keys(p) && AllZero(r)
  {
    seq(|p|, j requires 0 <= j < |p| => (p[j].0, 0.0))
  }

  /** `{k: {p: 0 for p in v} for k, v in parameters.items()}`. */
  function ZeroTables(ps: Dict<string, Params>): (r: Dict<string, Params>)
    ensures Keys(r) == Keys(ps)
    ensures forall i :: 0 <= i < |r| ==> Keys(r[i].1) == Keys(ps[i].1) && AllZero(r[i].1)
  {
    seq(|ps|, i requires 0 <= i < |ps| => (ps[i].0, ZeroParams(ps[i].1)))
  }

  /** The retained pixel: every table of 'Parameters' zeroed, 'H-index' 0,
      and 'data' with every other field kept. */
  function Zeroed(rec: Record, ps: Dict<string, Params>): (r: Record)
    requires rec.parameters == Some(ps)
    ensures r.data == rec.data && r.hIndex == Some(Finite(0.0))
    ensures r.parameters.Some? && Keys(r.parameters.value) == Keys(ps)
    ensures forall i :: 0 <= i < |ps| ==> Keys(r.parameters.value[i].1) == Keys(ps[i].1) && AllZero(r.parameters.value[i].1)
    ensures r.(parameters := rec.parameters, hIndex := rec.hIndex) == rec
  {
    rec.(parameters := Some(ZeroTables(ps)), hIndex := Some(Finite(0.0)))
  }

  /** One substrate listing more than one pixel, with the all-dead branch
      doing what the docstring of `filter1` promises: the first listed pixel
      stays with its parameters zeroed and its 'data' kept, and nothing is
      deleted. Every other case is the filter as written. */
  function RetainZeroed(pixels: Dict<string, Record>, listed: seq<string>): (r: Result<Dict<string, Record>>)
    ensures SubstrateFilter(pixels, listed) != Err(ZeroedParameters) ==> r == SubstrateFilter(pixels, listed)
  {
    var dead :- DeadPixels(pixels, listed, |listed|);
    if |dead| == |listed| then
      if listed == [] then Err(IndexError("list index out of range"))
      else
        match Lookup(pixels, listed[0])
        case None => Err(KeyError(listed[0]))
        case Some(rec) =>
          match rec.parameters
          case None => Err(KeyError("Parameters"))
          case Some(ps) => Ok(Put(pixels, listed[0], Zeroed(rec, ps)))
    else DeleteAll(pixels, dead, |dead|)
  }

  /** As many dead pixels as listed ones means every listed pixel is dead. */
  lemma {:induction false} FullDeadAllDead(pixels: Dict<string, Record>, listed: seq<string>, n: nat)
    requires n <= |listed| && DeadPixels(pixels, listed, n).Ok? && |DeadPixels(pixels, listed, n).value| == n
    ensures forall i :: 0 <= i < n ==> IsDead(pixels, listed[i])
  {
    if n > 0 {
      DeadStep(pixels, listed, n - 1);
      var prev := DeadPixels(pixels, listed, n - 1).value;
      DeadPixelsMeaning(pixels, listed, n - 1, listed[n - 1]);
      assert IsDead(pixels, listed[n - 1]) && |prev| == n - 1;
      FullDeadAllDead(pixels, listed, n - 1);
      forall i | 0 <= i < n
        ensures IsDead(pixels, listed[i])
      {
        if i < n - 1 {
          assert IsDead(pixels, listed[i]);
        }
      }
    }
  }

  /** Wherever the filter as written raises the AttributeError, the
      intended branch succeeds: the substrate keeps its pixels in order,
      the first listed one becomes its zeroed self, and every other pixel
      stays as it was. */
  lemma RetainZeroedKeepsOne(pixels: Dict<string, Record>, listed: seq<string>, q: string)
    requires SubstrateFilter(pixels, listed) == Err(ZeroedParameters) && listed != []
    ensures IsDead(pixels, listed[0])
    ensures RetainZeroed(pixels, listed).Ok?
    ensures Keys(RetainZeroed(pixels, listed).value) == Keys(pixels)
    ensures var rec := Get(pixels, listed[0]);
      Lookup(RetainZeroed(pixels, listed).value, q) ==
        if q == listed[0] then Some(Zeroed(rec, rec.parameters.value)) else Lookup(pixels, q)
  {
    FullDeadAllDead(pixels, listed, |listed|);
    var rec := Get(pixels, listed[0]);
    PutKeys(pixels, listed[0], Zeroed(rec, rec.parameters.value));
    PutLookup(pixels, listed[0], Zeroed(rec, rec.parameters.value), q);
  }

  /** A substrate of several pixels, all dead, keeps every pixel, the first
      listed one zeroed. */
  lemma AllDeadRetainsFirst(pixels: Dict<string, Record>, listed: seq<string>)
    requires |listed| > 1 && forall p :: p in listed ==> IsDead(pixels, p)
    ensures RetainZeroed(pixels, listed).Ok? && Keys(RetainZeroed(pixels, listed).value) == Keys(pixels)
  {
    AllDeadFails(pixels, listed);
    RetainZeroedKeepsOne(pixels, listed, listed[0]);
  }

  /** What `filter1` does to one entry of a folder, given its name and its
      pixels. */
  type Touch = (string, Dict<string, Record>) -> Result<Dict<string, Record>>

  /** The entry step of `filter1`: the TypeError of testing membership in
      an absent substrate map, the substrate filter for a substrate listing
      more than one pixel, and no change otherwise. */
  function Touched(substrates: Option<Dict<string, seq<string>>>): Touch
  {
    (name, pixels) => TouchEntry(substrates, name, pixels)
  }

  function TouchEntry(substrates: Option<Dict<string, seq<string>>>, name: string, pixels: Dict<string, Record>)
    : Result<Dict<string, Record>>
  {
    if substrates.None? then Err(TypeError("argument of type 'NoneType' is not iterable"))
    else
      var listed := Lookup(substrates.value, name);
      if listed.Some? && |listed.value| > 1 then SubstrateFilter(pixels, listed.value) else Ok(pixels)
  }

  /** The device loop of one folder over its first `n` entries. */
  function FolderPass(devs: Dict<string, Dict<string, Record>>, touch: Touch, n: nat): Result<Dict<string, Dict<string, Record>>>
    requires n <= |devs|
  {
    if n == 0 then Ok([])
    else
      var prev :- FolderPass(devs, touch, n - 1);
      var kept :- touch(devs[n - 1].0, devs[n - 1].1);
      Ok(prev + [(devs[n - 1].0, kept)])
  }

  /** The folder loop over the first `n` folders. */
  function Filter1Pass(data: Nested, touch: Touch, n: nat): Result<Nested>
    requires n <= |data|
  {
    if n == 0 then Ok([])
    else
      var prev :- Filter1Pass(data, touch, n - 1);
      var devs :- FolderPass(data[n - 1].1, touch, |data[n - 1].1|);
      Ok(prev + [(data[n - 1].0, devs)])
  }

  /** `filter1` on `data`. */
  function Filter1Of(data: Nested, substrates: Option<Dict<string, seq<string>>>): Result<Nested>
  {
    Filter1Pass(data, Touched(substrates), |data|)
  }

  /** The folder loop keeps the names and order of the entries, and an entry
      the step leaves alone stays as it was. */
  lemma {:induction false} FolderPassKeeps(devs: Dict<string, Dict<string, Record>>, touch: Touch, n: nat)
    requires n <= |devs| && FolderPass(devs, touch, n).Ok?
    ensures |FolderPass(devs, touch, n).value| == n
    ensures forall j :: 0 <= j < n ==>
      FolderPass(devs, touch, n).value[j].0 == devs[j].0 && Ok(FolderPass(devs, touch, n).value[j].1) == touch(devs[j].0, devs[j].1)
  {
    if n > 0 {
      FolderPassKeeps(devs, touch, n - 1);
    }
  }

  /** With a substrate map, `filter1` touches nothing but the substrates
      listing more than one pixel. */
  lemma OnlyListedSubstrates(substrates: Dict<string, seq<string>>, name: string, pixels: Dict<string, Record>)
    requires Lookup(substrates, name).None? || |Lookup(substrates, name).value| <= 1
    ensures Touched(Some(substrates))(name, pixels) == Ok(pixels)
  {
  }

  /** Without one, the first entry met raises the TypeError. */
  lemma WithoutSubstrates(data: Nested)
    requires exists i :: 0 <= i < |data| && data[i].1 != []
    ensures Filter1Of(data, None) == Err(TypeError("argument of type 'NoneType' is not iterable"))
  {
    var i :| 0 <= i < |data| && data[i].1 != [];
    var k := First(data);
    FirstFolderFails(data, k);
  }

  /** The first folder holding an entry. */
  function First(data: Nested): (k: nat)
    requires exists i :: 0 <= i < |data| && data[i].1 != []
    ensures k < |data| && data[k].1 != [] && forall i :: 0 <= i < k ==> data[i].1 == []
  {
    if data[0].1 != [] then 0
    else
      assert exists i :: 0 <= i < |data[1..]| && data[1..][i].1 != [] by {
        var i :| 0 <= i < |data| && data[i].1 != [];
        assert data[1..][i - 1] == data[i];
      }
      1 + First(data[1..])
  }

  lemma FirstFolderFails(data: Nested, k: nat)
    requires k < |data| && data[k].1 != [] && forall i :: 0 <= i < k ==> data[i].1 == []
    ensures Filter1Of(data, None) == Err(TypeError("argument of type 'NoneType' is not iterable"))
  {
    var touch := Touched(None);
    EmptyFolders(data, touch, k);
    FolderFailsFirst(data[k].1, touch, |data[k].1|);
    Filter1StaysFailed(data, touch, k + 1, |data|);
  }

  lemma {:induction false} EmptyFolders(data: Nested, touch: Touch, k: nat)
    requires k <= |data| && forall i :: 0 <= i < k ==> data[i].1 == []
    ensures Filter1Pass(data, touch, k).Ok?
  {
    if k > 0 {
      EmptyFolders(data, touch, k - 1);
    }
  }

  lemma {:induction false} FolderFailsFirst(devs: Dict<string, Dict<string, Record>>, touch: Touch, n: nat)
    requires 0 < n <= |devs| && touch == Touched(None)
    ensures FolderPass(devs, touch, n) == Err(TypeError("argument of type 'NoneType' is not iterable"))
  {
    if n > 1 {
      FolderFailsFirst(devs, touch, n - 1);
    }
  }


  /** The entry step with the all-dead branch of the docstring. */
  function RetainedEntry(substrates: Option<Dict<string, seq<string>>>, name: string, pixels: Dict<string, Record>)
    : (r: Result<Dict<string, Record>>)
    ensures TouchEntry(substrates, name, pixels) != Err(ZeroedParameters) ==> r == TouchEntry(substrates, name, pixels)
  {
    if substrates.None? then Err(TypeError("argument of type 'NoneType' is not iterable"))
    else
      var listed := Lookup(substrates.value, name);
      if listed.Some? && |listed.value| > 1 then RetainZeroed(pixels, listed.value) else Ok(pixels)
  }

  function RetainedTouched(substrates: Option<Dict<string, seq<string>>>): Touch
  {
    (name, pixels) => RetainedEntry(substrates, name, pixels)
  }

  /** `filter1` with the all-dead branch its docstring describes. */
  function Filter1Intended(data: Nested, substrates: Option<Dict<string, seq<string>>>): Result<Nested>
  {
    Filter1Pass(data, RetainedTouched(substrates), |data|)
  }

  /** Where the device loop as written gets through a folder, the intended
      one gives the same folder. */
  lemma RetainedFolderAgrees(devs: Dict<string, Dict<string, Record>>, substrates: Option<Dict<string, seq<string>>>, n: nat)
    requires n <= |devs| && FolderPass(devs, Touched(substrates), n).Ok?
    ensures FolderPass(devs, RetainedTouched(substrates), n) == FolderPass(devs, Touched(substrates), n)
  {
    var written, intended := Touched(substrates), RetainedTouched(substrates);
    FolderPassKeeps(devs, written, n);
    forall k | 0 <= k < n
      ensures intended(devs[k].0, devs[k].1) == written(devs[k].0, devs[k].1)
    {
      assert written(devs[k].0, devs[k].1).Ok?;
    }
    FolderPassSame(devs, written, intended, n);
  }

  /** Two entry steps that agree on every entry the loop reaches give the
      same folder. */
  lemma {:induction false} FolderPassSame(devs: Dict<string, Dict<string, Record>>, t1: Touch, t2: Touch, n: nat)
    requires n <= |devs| && FolderPass(devs, t1, n).Ok?
    requires forall k :: 0 <= k < n ==> t2(devs[k].0, devs[k].1) == t1(devs[k].0, devs[k].1)
    ensures FolderPass(devs, t2, n) == FolderPass(devs, t1, n)
  {
    if n > 0 {
      FolderPassSame(devs, t1, t2, n - 1);
    }
  }

  /** Where `filter1` as written succeeds, the intended filter gives the
      same data: the two differ only on a substrate whose pixels are all
      dead. */
  lemma {:induction false} Filter1IntendedAgrees(data: Nested, substrates: Option<Dict<string, seq<string>>>, n: nat)
    requires n <= |data| && Filter1Pass(data, Touched(substrates), n).Ok?
    ensures Filter1Pass(data, RetainedTouched(substrates), n) == Filter1Pass(data, Touched(substrates), n)
  {
    if n > 0 {
      Filter1IntendedAgrees(data, substrates, n - 1);
      RetainedFolderAgrees(data[n - 1].1, substrates, |data[n - 1].1|);
    }
  }
  // ---------------------------------------------------------------------
  // The class

  class FilterJVData {
    var data: Nested
    var substrates: Option<Dict<string, seq<string>>>

    constructor(data: Nested, substrates: Option<Dict<string, seq<string>>>)
      ensures this.data == data && this.substrates == substrates
    {
      this.data := data;
      this.substrates := substrates;
    }

    /** The dead-pixel loop of one substrate. */
    static method FindDead(pixels: Dict<string, Record>, listed: seq<string>) returns (r: Result<seq<string>>)
      ensures r == DeadPixels(pixels, listed, |listed|)
    {
      var dead: seq<string> := [];
      var k := 0;
      while k < |listed|
        invariant 0 <= k <= |listed|
        invariant DeadPixels(pixels, listed, k) == Ok(dead)
      {
        var p := listed[k];
        var rec := Lookup(pixels, p);
        ghost var next := DeadPixels(pixels, listed, k + 1);
        DeadNext(pixels, listed, k, dead);
        if rec.Some? {
          var e := EfficiencyOf(rec.value);
          if e.Err? {
            assert next == Err(e.error);
            DeadStaysFailed(pixels, listed, k + 1, |listed|);
            return Err(e.error);
          }
          if e.value < DEAD_LIMIT {
            dead := dead + [p];
          }
        }
        assert next == Ok(dead);
        k := k + 1;
      }
      r := Ok(dead);
    }

    /** The deletion loop of one substrate. */
    static method Delete(pixels: Dict<string, Record>, dead: seq<string>) returns (r: Result<Dict<string, Record>>)
      ensures r == DeleteAll(pixels, dead, |dead|)
    {
      var kept := pixels;
      var k := 0;
      while k < |dead|
        invariant 0 <= k <= |dead|
        invariant DeleteAll(pixels, dead, k) == Ok(kept)
      {
        if !Has(kept, dead[k]) {
          DeleteStaysFailed(pixels, dead, k + 1, |dead|);
          return Err(KeyError(dead[k]));
        }
        kept := Remove(kept, dead[k]);
        k := k + 1;
      }
      r := Ok(kept);
    }

    /** The loop body for one entry of a folder. */
    static method FilterEntry(substrates: Option<Dict<string, seq<string>>>, name: string, pixels: Dict<string, Record>)
      returns (r: Result<Dict<string, Record>>)
      ensures r == Touched(substrates)(name, pixels)
    {
      if substrates.None? {
        return Err(TypeError("argument of type 'NoneType' is not iterable"));
      }
      var listed := Lookup(substrates.value, name);
      if listed.Some? && |listed.value| > 1 {
        var dead := FindDead(pixels, listed.value);
        if dead.Err? {
          return Err(dead.error);
        }
        if |dead.value| == |listed.value| {
          return Err(ZeroedParameters);
        }
        r := Delete(pixels, dead.value);
      } else {
        r := Ok(pixels);
      }
    }

    /** The device loop of one folder: its entries filtered one by one. */
    static method FilterFolder(substrates: Option<Dict<string, seq<string>>>, devs: Dict<string, Dict<string, Record>>)
      returns (r: Result<Dict<string, Dict<string, Record>>>)
      ensures r == FolderPass(devs, Touched(substrates), |devs|)
    {
      var done: Dict<string, Dict<string, Record>> := [];
      var j := 0;
      while j < |devs|
        invariant 0 <= j <= |devs|
        invariant FolderPass(devs, Touched(substrates), j) == Ok(done)
      {
        var kept := FilterEntry(substrates, devs[j].0, devs[j].1);
        FolderAdvance(devs, Touched(substrates), j, done, kept);
        if kept.Err? {
          return Err(kept.error);
        }
        done := done + [(devs[j].0, kept.value)];
        j := j + 1;
      }
      r := Ok(done);
    }

    /** The folder loop of `filter1`: each folder's devices filtered in
        turn, the folders keeping their names and order. */
    static method FilterFolders(substrates: Option<Dict<string, seq<string>>>, folders: Nested) returns (r: Result<Nested>)
      ensures r == Filter1Pass(folders, Touched(substrates), |folders|)
    {
      var done: Nested := [];
      for i := 0 to |folders|
        invariant |done| == i
        invariant Filter1Pass(folders, Touched(substrates), i) == Ok(done)
      {
        var devs := FilterFolder(substrates, folders[i].1);
        Filter1Advance(folders, Touched(substrates), i, done, devs);
        if devs.Err? {
          return Err(devs.error);
        }
        done := done + [(folders[i].0, devs.value)];
      }
      r := Ok(done);
    }

    /** `filter1`: on success the data is the filtered data and is also
        returned; the state an exception leaves behind is not described. */
    method Filter1() returns (r: Result<Nested>)
      modifies this`data
      ensures var s := Filter1Of(old(data), substrates);
        if s.Ok? then r == Ok(data) && data == s.value else r == Err(s.error)
    {
      r := FilterFolders(substrates, data);
      if r.Ok? {
        data := r.value;
      }
    }

    /** `filter2`: the flags it computes are lost when line 91 reads the
        undefined name `data`, so every call raises NameError. */
    method Filter2() returns (r: Result<(Nested, seq<string>)>)
      ensures r == Err(NameError("data"))
    {
      r := Err(NameError("data"));
    }
  }

  /** One more pass of the dead-pixel loop. */
  lemma DeadNext(pixels: Dict<string, Record>, listed: seq<string>, n: nat, dead: seq<string>)
    requires n < |listed| && DeadPixels(pixels, listed, n) == Ok(dead)
    ensures Lookup(pixels, listed[n]).None? ==> DeadPixels(pixels, listed, n + 1) == Ok(dead)
    ensures Lookup(pixels, listed[n]).Some? ==>
      var e := EfficiencyOf(Lookup(pixels, listed[n]).value);
      DeadPixels(pixels, listed, n + 1) ==
        if e.Err? then Err(e.error) else Ok(if e.value < DEAD_LIMIT then dead + [listed[n]] else dead)
  {
  }

  lemma {:induction false} DeadStaysFailed(pixels: Dict<string, Record>, listed: seq<string>, m: nat, n: nat)
    requires m <= n <= |listed| && DeadPixels(pixels, listed, m).Err?
    ensures DeadPixels(pixels, listed, n) == DeadPixels(pixels, listed, m)
  {
    if n > m {
      DeadStaysFailed(pixels, listed, m, n - 1);
    }
  }

  lemma {:induction false} DeleteStaysFailed(pixels: Dict<string, Record>, ps: seq<string>, m: nat, n: nat)
    requires m <= n <= |ps| && DeleteAll(pixels, ps, m).Err?
    ensures DeleteAll(pixels, ps, n) == DeleteAll(pixels, ps, m)
  {
    if n > m {
      DeleteStaysFailed(pixels, ps, m, n - 1);
    }
  }

  lemma {:induction false} FolderStaysFailed(devs: Dict<string, Dict<string, Record>>, touch: Touch, m: nat, n: nat)
    requires m <= n <= |devs| && FolderPass(devs, touch, m).Err?
    ensures FolderPass(devs, touch, n) == FolderPass(devs, touch, m)
  {
    if n > m {
      FolderStaysFailed(devs, touch, m, n - 1);
    }
  }

  lemma {:induction false} Filter1StaysFailed(data: Nested, touch: Touch, m: nat, n: nat)
    requires m <= n <= |data| && Filter1Pass(data, touch, m).Err?
    ensures Filter1Pass(data, touch, n) == Filter1Pass(data, touch, m)
  {
    if n > m {
      Filter1StaysFailed(data, touch, m, n - 1);
    }
  }

  /** One more pass of the device loop. */
  lemma FolderNext(devs: Dict<string, Dict<string, Record>>, touch: Touch, n: nat, done: Dict<string, Dict<string, Record>>)
    requires n < |devs| && FolderPass(devs, touch, n) == Ok(done)
    ensures var r := touch(devs[n].0, devs[n].1);
      FolderPass(devs, touch, n + 1) == if r.Ok? then Ok(done + [(devs[n].0, r.value)]) else Err(r.error)
  {
  }

  /** What one pass of the device loop leads to: the folder fails with the
      entry's error, or the filtered entries grow by this one. */
  lemma FolderAdvance(devs: Dict<string, Dict<string, Record>>, touch: Touch, n: nat,
                      done: Dict<string, Dict<string, Record>>, kept: Result<Dict<string, Record>>)
    requires n < |devs| && FolderPass(devs, touch, n) == Ok(done)
    requires kept == touch(devs[n].0, devs[n].1)
    ensures kept.Err? ==> FolderPass(devs, touch, |devs|) == Err(kept.error)
    ensures kept.Ok? ==> FolderPass(devs, touch, n + 1) == Ok(done + [(devs[n].0, kept.value)])
  {
    FolderNext(devs, touch, n, done);
    if kept.Err? {
      FolderStaysFailed(devs, touch, n + 1, |devs|);
    }
  }

  /** What one pass of the folder loop of `filter1` leads to: the whole
      filter fails with the folder's error, or the filtered folders grow by
      this one. */
  lemma Filter1Advance(data: Nested, touch: Touch, n: nat, done: Nested, r: Result<Dict<string, Dict<string, Record>>>)
    requires n < |data| && |done| == n && Filter1Pass(data, touch, n) == Ok(done)
    requires r == FolderPass(data[n].1, touch, |data[n].1|)
    ensures r.Err? ==> Filter1Pass(data, touch, |data|) == Err(r.error)
    ensures r.Ok? ==> Filter1Pass(data, touch, n + 1) == Ok(done + [(data[n].0, r.value)])
  {
    Filter1Next(data, touch, n, done);
    if r.Err? {
      Filter1StaysFailed(data, touch, n + 1, |data|);
    }
  }

  /** One more pass of the folder loop. */
  lemma Filter1Next(data: Nested, touch: Touch, n: nat, done: Nested)
    requires n < |data| && Filter1Pass(data, touch, n) == Ok(done)
    ensures var r := FolderPass(data[n].1, touch, |data[n].1|);
      Filter1Pass(data, touch, n + 1) == if r.Ok? then Ok(done + [(data[n].0, r.value)]) else Err(r.error)
  {
  }
}
