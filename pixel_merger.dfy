/** Merging the pixels of one substrate into a single device record
    (JV_plotter_GUI/Pixel_merger.py): per-direction parameter means with the
    selected error statistic, settings that must agree across pixels, the
    mean H-index, averaged IV curves and the de-duplicated file list; and
    `merge_substrates`, which replaces each substrate's pixels in every
    folder by that merged record. The square root is a parameter. */
module PixelMerger {
  import opened Wrappers
  import opened Dicts
  import opened Frames
  import opened Records
  import DF = DeviceFilter

  // ---------------------------------------------------------------------
  // Statistics.

  /** The error statistics the main window can select. */
  const STATS: seq<string> := ["std_dev", "mae", "mse", "rmse", "mape", "mad"]

  /** `np.nan_to_num(np.inf)`: the largest double. */
  const MAX_DOUBLE: real := 1.7976931348623157e308

  /** `np.abs(values - m)`. */
  function Deviations(xs: seq<real>, m: real): (d: seq<real>)
    ensures |d| == |xs| && forall k :: 0 <= k < |xs| ==> d[k] == Abs(xs[k] - m)
  {
    seq(|xs|, k requires 0 <= k < |xs| => Abs(xs[k] - m))
  }

  /** `(values - m) ** 2`. */
  function Squares(xs: seq<real>, m: real): (d: seq<real>)
    ensures |d| == |xs| && forall k :: 0 <= k < |xs| ==> d[k] == (xs[k] - m) * (xs[k] - m)
  {
    seq(|xs|, k requires 0 <= k < |xs| => (xs[k] - m) * (xs[k] - m))
  }

  /** `np.abs((values - m) / values)`, for values none of which is zero. */
  function Ratios(xs: seq<real>, m: real): (d: seq<real>)
    ensures |d| == |xs| && forall k :: 0 <= k < |xs| && xs[k] != 0.0 ==> d[k] == Abs((xs[k] - m) / xs[k])
  {
    seq(|xs|, k requires 0 <= k < |xs| => if xs[k] == 0.0 then 0.0 else Abs((xs[k] - m) / xs[k]))
  }

  /** Bounds on every element bound the sum. */
  lemma {:induction false} SumBounds(s: seq<real>, lo: real, hi: real)
    requires forall k :: 0 <= k < |s| ==> lo <= s[k] <= hi
    ensures lo * |s| as real <= Sum(s) <= hi * |s| as real
  {
    if s != [] {
      var n := |s| - 1;
      SumBounds(s[..n], lo, hi);
      assert lo * |s| as real == lo * n as real + lo;
      assert hi * |s| as real == hi * n as real + hi;
    }
  }

  /** The mean lies between the least and the greatest value. */
  lemma MeanBounds(s: seq<real>, lo: real, hi: real)
    requires s != [] && forall k :: 0 <= k < |s| ==> lo <= s[k] <= hi
    ensures lo <= Mean(s) <= hi
  {
    SumBounds(s, lo, hi);
    var n := |s| as real;
    assert Mean(s) * n == Sum(s);
  }

  predicate Ascending(s: seq<real>)
  {
    forall i, j :: 0 <= i < j < |s| ==> s[i] <= s[j]
  }

  /** One value inserted into ascending values. */
  function InsertSorted(x: real, s: seq<real>): (r: seq<real>)
    requires Ascending(s)
    ensures Ascending(r) && multiset(r) == multiset(s) + multiset{x} && |r| == |s| + 1
  {
    if s == [] || x <= s[0] then [x] + s
    else
      var t := InsertSorted(x, s[1..]);
      assert s == [s[0]] + s[1..];
      HeadBelow(x, s, t);
      [s[0]] + t
  }

  /** The head of ascending values lies below every value of their tail
      with a greater value inserted. */
  lemma HeadBelow(x: real, s: seq<real>, t: seq<real>)
    requires Ascending(s) && s != [] && s[0] < x
    requires multiset(t) == multiset(s[1..]) + multiset{x}
    ensures forall k :: 0 <= k < |t| ==> s[0] <= t[k]
  {
    forall k | 0 <= k < |t| ensures s[0] <= t[k] {
      assert t[k] in multiset(t);
      if t[k] != x {
        assert t[k] in multiset(s[1..]);
        var j :| 0 <= j < |s[1..]| && s[1..][j] == t[k];
        assert s[j + 1] == t[k];
      }
    }
  }

  /** The values in ascending order. */
  function SortReals(s: seq<real>): (r: seq<real>)
    ensures Ascending(r) && multiset(r) == multiset(s) && |r| == |s|
  {
    if s == [] then []
    else
      assert s == s[..|s| - 1] + [s[|s| - 1]];
      InsertSorted(s[|s| - 1], SortReals(s[..|s| - 1]))
  }

  /** `np.median`: the middle of the sorted values, or the mean of the two
      middle ones. It lies between two of the values and is one of them
      when their number is odd. */
  function Median(s: seq<real>): (m: real)
    requires s != []
    ensures exists i, j :: 0 <= i < |s| && 0 <= j < |s| && s[i] <= m <= s[j]
    ensures |s| % 2 == 1 ==> m in s
  {
    var t := SortReals(s);
    var h := |s| / 2;
    SortedFrom(s, t, h);
    if |s| % 2 == 1 then t[h]
    else
      SortedFrom(s, t, h - 1);
      (t[h - 1] + t[h]) / 2.0
  }

  /** Each of the sorted values is one of the values. */
  lemma SortedFrom(s: seq<real>, t: seq<real>, k: nat)
    requires multiset(t) == multiset(s) && k < |t|
    ensures t[k] in s
  {
    assert t[k] in multiset(t);
  }

  /** `np.mean` of values that may be empty (numpy gives NaN then). */
  function MeanValue(xs: seq<real>): (v: Value)
    ensures v.Finite? <==> xs != []
  {
    if xs == [] then NonFinite else Finite(Mean(xs))
  }

  /** The mean absolute percentage error with numpy's division by zero:
      a zero value makes a term infinite, or NaN when the mean is zero too;
      `nan_to_num` turns NaN into 0 and infinity into the largest double. */
  function MapeOf(xs: seq<real>, m: real): real
    requires xs != []
  {
    if exists k :: 0 <= k < |xs| && xs[k] == 0.0 then (if m == 0.0 then 0.0 else MAX_DOUBLE)
    else 100.0 * Mean(Ratios(xs, m))
  }

  /** The error statistics, in the order of `STATS`. */
  datatype Stat = StdDev | Mae | Mse | Rmse | Mape | Mad

  /** The statistic a setting names; any other name raises ValueError. */
  function ParseStat(name: string): (r: Result<Stat>)
    ensures r.Ok? <==> name in STATS
    ensures r.Err? ==> r.error == ValueError("Unknown stat: " + name)
  {
    if name == "std_dev" then Ok(StdDev)
    else if name == "mae" then Ok(Mae)
    else if name == "mse" then Ok(Mse)
    else if name == "rmse" then Ok(Rmse)
    else if name == "mape" then Ok(Mape)
    else if name == "mad" then Ok(Mad)
    else Err(ValueError("Unknown stat: " + name))
  }

  /** The error statistic of the values: the sample deviation (ddof = 1,
      NaN for a single value), the mean absolute, squared and root mean
      squared errors, the percentage error and the median absolute
      deviation; every statistic of no values is NaN. */
  function Spread(st: Stat, xs: seq<real>, sqrt: real -> real): Value
  {
    if xs == [] then NonFinite
    else
      var m := Mean(xs);
      match st
      case StdDev => if |xs| == 1 then NonFinite else Finite(sqrt(Sum(Squares(xs, m)) / (|xs| - 1) as real))
      case Mae => Finite(Mean(Deviations(xs, m)))
      case Mse => Finite(Mean(Squares(xs, m)))
      case Rmse => Finite(sqrt(Mean(Squares(xs, m))))
      case Mape => Finite(MapeOf(xs, m))
      case Mad => Finite(Median(Deviations(xs, Median(xs))))
  }

  /** The absolute, squared, percentage and median errors are never
      negative. */
  lemma SpreadNonNegative(st: Stat, xs: seq<real>, sqrt: real -> real)
    requires xs != [] && st != StdDev && st != Rmse
    ensures Spread(st, xs, sqrt).Finite? && Spread(st, xs, sqrt).x >= 0.0
  {
    match st
    case Mae => MaeNonNegative(xs, sqrt);
    case Mse => MseNonNegative(xs, sqrt);
    case Mape => MapeNonNegative(xs, sqrt);
    case Mad => SpreadOf(Mad, xs, sqrt);
  }

  /** The mean absolute error is never negative. */
  lemma MaeNonNegative(xs: seq<real>, sqrt: real -> real)
    requires xs != []
    ensures Spread(Mae, xs, sqrt).Finite? && Spread(Mae, xs, sqrt).x >= 0.0
  {
    var d := Deviations(xs, Mean(xs));
    SpreadOf(Mae, xs, sqrt);
    MeanBounds(d, 0.0, MaxOf(d));
  }

  /** The mean squared error is never negative. */
  lemma MseNonNegative(xs: seq<real>, sqrt: real -> real)
    requires xs != []
    ensures Spread(Mse, xs, sqrt).Finite? && Spread(Mse, xs, sqrt).x >= 0.0
  {
    var m := Mean(xs);
    SpreadOf(Mse, xs, sqrt);
    forall k | 0 <= k < |xs| ensures Squares(xs, m)[k] >= 0.0 {
      var d := xs[k] - m;
      assert d * d >= 0.0;
    }
    MeanBounds(Squares(xs, m), 0.0, MaxOf(Squares(xs, m)));
  }

  /** The mean absolute percentage error is never negative. */
  lemma MapeNonNegative(xs: seq<real>, sqrt: real -> real)
    requires xs != []
    ensures Spread(Mape, xs, sqrt).Finite? && Spread(Mape, xs, sqrt).x >= 0.0
  {
    var m := Mean(xs);
    SpreadOf(Mape, xs, sqrt);
    if !exists k :: 0 <= k < |xs| && xs[k] == 0.0 {
      MeanBounds(Ratios(xs, m), 0.0, MaxOf(Ratios(xs, m)));
    }
  }

  /** The value of each statistic of some values, one case at a time. */
  lemma SpreadOf(st: Stat, xs: seq<real>, sqrt: real -> real)
    requires xs != [] && st != StdDev && st != Rmse
    ensures st == Mae ==> Spread(st, xs, sqrt) == Finite(Mean(Deviations(xs, Mean(xs))))
    ensures st == Mse ==> Spread(st, xs, sqrt) == Finite(Mean(Squares(xs, Mean(xs))))
    ensures st == Mape ==> Spread(st, xs, sqrt) == Finite(MapeOf(xs, Mean(xs)))
    ensures st == Mad ==> Spread(st, xs, sqrt) == Finite(Median(Deviations(xs, Median(xs))))
  {
  }

  /** The greatest value. */
  function MaxOf(s: seq<real>): (m: real)
    requires s != []
    ensures forall k :: 0 <= k < |s| ==> s[k] <= m
  {
    if |s| == 1 then s[0]
    else
      var m := MaxOf(s[..|s| - 1]);
      assert forall k :: 0 <= k < |s| - 1 ==> s[..|s| - 1][k] == s[k];
      if s[|s| - 1] > m then s[|s| - 1] else m
  }

  /** Values all equal to `c` have mean `c`. */
  lemma MeanOfIdentical(xs: seq<real>, c: real)
    requires xs != [] && forall k :: 0 <= k < |xs| ==> xs[k] == c
    ensures Mean(xs) == c
  {
    MeanBounds(xs, c, c);
  }

  /** Zeros sum to zero and have mean and median zero. */
  lemma Zeros(ds: seq<real>)
    requires ds != [] && forall k :: 0 <= k < |ds| ==> ds[k] == 0.0
    ensures Sum(ds) == 0.0 && Mean(ds) == 0.0 && Median(ds) == 0.0
  {
    SumBounds(ds, 0.0, 0.0);
    MeanBounds(ds, 0.0, 0.0);
  }

  /** Identical pixels: every error statistic is zero (its square root for
      the two root statistics), except the sample deviation of a single
      value, which is NaN. */
  lemma IdenticalValues(st: Stat, xs: seq<real>, c: real, sqrt: real -> real)
    requires xs != [] && forall k :: 0 <= k < |xs| ==> xs[k] == c
    ensures Spread(st, xs, sqrt) ==
      if st == StdDev && |xs| == 1 then NonFinite
      else if st == StdDev || st == Rmse then Finite(sqrt(0.0))
      else Finite(0.0)
  {
    MeanOfIdentical(xs, c);
    if st == Mad {
      IdenticalMedian(xs, c, sqrt);
    } else if st == Mape {
      IdenticalMape(xs, c, sqrt);
    } else if st == Mae {
      Zeros(Deviations(xs, c));
    } else {
      IdenticalSquares(st, xs, c, sqrt);
    }
  }

  lemma IdenticalMedian(xs: seq<real>, c: real, sqrt: real -> real)
    requires xs != [] && forall k :: 0 <= k < |xs| ==> xs[k] == c
    ensures Spread(Mad, xs, sqrt) == Finite(0.0)
  {
    SpreadOf(Mad, xs, sqrt);
    MedianOfIdentical(xs, c);
    MedianOfIdentical(Deviations(xs, c), 0.0);
  }

  /** Identical values have that value as median. */
  lemma MedianOfIdentical(xs: seq<real>, c: real)
    requires xs != [] && forall k :: 0 <= k < |xs| ==> xs[k] == c
    ensures Median(xs) == c
  {
  }

  lemma IdenticalMape(xs: seq<real>, c: real, sqrt: real -> real)
    requires xs != [] && forall k :: 0 <= k < |xs| ==> xs[k] == c
    ensures Spread(Mape, xs, sqrt) == Finite(0.0)
  {
    MeanOfIdentical(xs, c);
    SpreadOf(Mape, xs, sqrt);
    if c != 0.0 {
      Zeros(Ratios(xs, c));
    } else {
      assert xs[0] == 0.0;
    }
  }

  lemma IdenticalSquares(st: Stat, xs: seq<real>, c: real, sqrt: real -> real)
    requires xs != [] && forall k :: 0 <= k < |xs| ==> xs[k] == c
    requires st == Mse || st == Rmse || st == StdDev
    ensures st == Mse ==> Spread(st, xs, sqrt) == Finite(0.0)
    ensures st == Rmse ==> Spread(st, xs, sqrt) == Finite(sqrt(0.0))
    ensures st == StdDev ==> Spread(st, xs, sqrt) == if |xs| == 1 then NonFinite else Finite(sqrt(0.0))
  {
    MeanOfIdentical(xs, c);
    var q := Squares(xs, c);
    Zeros(q);
    assert Squares(xs, Mean(xs)) == q;
    if |xs| > 1 {
      var d := (|xs| - 1) as real;
      assert Sum(q) == 0.0 && d > 0.0;
      assert 0.0 / d == 0.0;
    }
  }

  // ---------------------------------------------------------------------
  // `average_parameters`.

  /** `{key: [] for key in first}`. */
  function EmptyColumns(ks: seq<string>): (c: Dict<string, seq<real>>)
    ensures Keys(c) == ks && forall i :: 0 <= i < |c| ==> c[i].1 == []
  {
    seq(|ks|, i requires 0 <= i < |ks| => (ks[i], []))
  }

  /** The value of an optional entry as a list of zero or one element. */
  function AsList(o: Option<real>): seq<real>
  {
    if o.Some? then [o.value] else []
  }

  /** `param_values[key].append(value)` for every entry of one pixel's
      table; a key the first table lacks raises KeyError. */
  function AppendEntries(acc: Dict<string, seq<real>>, d: Params): Result<Dict<string, seq<real>>>
  {
    if d == [] then Ok(acc)
    else
      var a :- AppendEntries(acc, d[..|d| - 1]);
      var e := d[|d| - 1];
      if Has(a, e.0) then Ok(Put(a, e.0, Get(a, e.0) + [e.1])) else Err(KeyError(e.0))
  }

  /** Appending succeeds when the columns hold every key of the table,
      fails with KeyError otherwise, and keeps the keys. */
  lemma {:induction false} AppendOk(acc: Dict<string, seq<real>>, d: Params, n: nat)
    requires n <= |d|
    ensures AppendEntries(acc, d[..n]).Ok? <==> forall j :: 0 <= j < n ==> Has(acc, d[j].0)
    ensures AppendEntries(acc, d[..n]).Err? ==> AppendEntries(acc, d[..n]).error.KeyError?
    ensures AppendEntries(acc, d[..n]).Ok? ==> Keys(AppendEntries(acc, d[..n]).value) == Keys(acc)
  {
    if n == 0 {
      assert d[..0] == [];
    } else {
      AppendOk(acc, d, n - 1);
      AppendStep(acc, d, n);
      var r := AppendEntries(acc, d[..n - 1]);
      var e := d[n - 1];
      assert (forall j :: 0 <= j < n ==> Has(acc, d[j].0)) <==>
        (forall j :: 0 <= j < n - 1 ==> Has(acc, d[j].0)) && Has(acc, e.0);
      if r.Ok? {
        assert Has(r.value, e.0) == Has(acc, e.0);
        if Has(r.value, e.0) {
          PutKeys(r.value, e.0, Get(r.value, e.0) + [e.1]);
        }
      }
    }
  }

  /** Appending one entry more of the table. */
  lemma AppendStep(acc: Dict<string, seq<real>>, d: Params, n: nat)
    requires 0 < n <= |d|
    ensures var r, e := AppendEntries(acc, d[..n - 1]), d[n - 1];
      AppendEntries(acc, d[..n]) ==
        if r.Err? then r
        else if Has(r.value, e.0) then Ok(Put(r.value, e.0, Get(r.value, e.0) + [e.1]))
        else Err(KeyError(e.0))
  {
    PrefixSnoc(d, n);
    ConcatPrefix(d[..n - 1], [d[n - 1]]);
  }

  /** After appending a table, each column has gained the table's value
      for its key. */
  lemma {:induction false} AppendLookup(acc: Dict<string, seq<real>>, d: Params, n: nat, k: string)
    requires Valid(d) && n <= |d| && AppendEntries(acc, d[..n]).Ok?
    ensures Lookup(AppendEntries(acc, d[..n]).value, k) ==
      if Has(acc, k) then Some(Get(acc, k) + AsList(Lookup(d[..n], k))) else None
  {
    if n == 0 {
      assert d[..0] == [];
      assert AsList(Lookup(d[..0], k)) == [];
      if Has(acc, k) {
        assert Get(acc, k) + [] == Get(acc, k);
      }
    } else {
      PrefixSnoc(d, n);
      ConcatPrefix(d[..n - 1], [d[n - 1]]);
      AppendOk(acc, d, n - 1);
      AppendLookup(acc, d, n - 1, k);
      LookupPrefix(d, n, k);
      LastKeyFresh(d, n);
      var r := AppendEntries(acc, d[..n - 1]).value;
      var e := d[n - 1];
      assert AppendEntries(acc, d[..n]) == if Has(r, e.0) then Ok(Put(r, e.0, Get(r, e.0) + [e.1])) else Err(KeyError(e.0));
      assert Has(r, e.0);
      PutLookup(r, e.0, Get(r, e.0) + [e.1], k);
      var res := Put(r, e.0, Get(r, e.0) + [e.1]);
      assert AppendEntries(acc, d[..n]).value == res;
      if k == e.0 {
        assert Lookup(d[..n - 1], k) == None;
        assert Lookup(d[..n], k) == Some(e.1);
        assert Has(acc, k);
        assert Get(r, k) == Get(acc, k);
        assert Lookup(res, k) == Some(Get(acc, k) + [e.1]);
      } else {
        assert Lookup(d[..n], k) == Lookup(d[..n - 1], k);
        assert Lookup(res, k) == Lookup(r, k);
      }
    }
  }

  /** Every pixel table's entries, table by table. */
  function Gather(acc: Dict<string, seq<real>>, dicts: seq<Params>): Result<Dict<string, seq<real>>>
  {
    if dicts == [] then Ok(acc)
    else
      var a :- Gather(acc, dicts[..|dicts| - 1]);
      AppendEntries(a, dicts[|dicts| - 1])
  }

  /** The values of `k` in the tables holding it, in table order. */
  function Column(dicts: seq<Params>, k: string): seq<real>
  {
    if dicts == [] then [] else Column(dicts[..|dicts| - 1], k) + AsList(Lookup(dicts[|dicts| - 1], k))
  }

  /** Every table is a dictionary. */
  predicate AllValid(dicts: seq<Params>)
  {
    dicts == [] || (AllValid(dicts[..|dicts| - 1]) && Valid(dicts[|dicts| - 1]))
  }

  /** Every key of every table is one of `ks`. */
  predicate KeysWithin(dicts: seq<Params>, ks: seq<string>)
  {
    forall i, j :: 0 <= i < |dicts| && 0 <= j < |dicts[i]| ==> dicts[i][j].0 in ks
  }

  /** Gathering succeeds when the columns hold every key of every table,
      fails with KeyError otherwise, and keeps the keys. */
  lemma {:induction false} GatherOk(acc: Dict<string, seq<real>>, dicts: seq<Params>)
    ensures Gather(acc, dicts).Ok? <==> KeysWithin(dicts, Keys(acc))
    ensures Gather(acc, dicts).Err? ==> Gather(acc, dicts).error.KeyError?
    ensures Gather(acc, dicts).Ok? ==> Keys(Gather(acc, dicts).value) == Keys(acc)
  {
    if dicts != [] {
      var init := dicts[..|dicts| - 1];
      var d := dicts[|dicts| - 1];
      GatherOk(acc, init);
      PrefixAll(d);
      assert forall i :: 0 <= i < |init| ==> init[i] == dicts[i];
      var g := Gather(acc, init);
      if g.Ok? {
        AppendOk(g.value, d, |d|);
        if !KeysWithin(dicts, Keys(acc)) && KeysWithin(init, Keys(acc)) {
          var i, j :| 0 <= i < |dicts| && 0 <= j < |dicts[i]| && dicts[i][j].0 !in Keys(acc);
          assert i == |dicts| - 1;
        }
      }
    }
  }

  /** After gathering, each column holds the values of its key in table
      order. */
  lemma {:induction false} GatherLookup(acc: Dict<string, seq<real>>, dicts: seq<Params>, k: string)
    requires AllValid(dicts) && Gather(acc, dicts).Ok?
    ensures Lookup(Gather(acc, dicts).value, k) == if Has(acc, k) then Some(Get(acc, k) + Column(dicts, k)) else None
  {
    if dicts == [] {
      if Has(acc, k) {
        assert Get(acc, k) + Column(dicts, k) == Get(acc, k);
      }
    } else {
      var init := dicts[..|dicts| - 1];
      var d := dicts[|dicts| - 1];
      assert Gather(acc, init).Ok?;
      var g := Gather(acc, init).value;
      assert Gather(acc, dicts) == AppendEntries(g, d);
      GatherLookup(acc, init, k);
      PrefixAll(d);
      AppendLookup(g, d, |d|, k);
      assert Column(dicts, k) == Column(init, k) + AsList(Lookup(d, k));
      if Has(acc, k) {
        assert Get(acc, k) + Column(init, k) + AsList(Lookup(d, k)) == Get(acc, k) + Column(dicts, k);
      }
    }
  }

  /** For each column, its mean under the key and its error statistic
      under "key stat", in column order. */
  function Averaged(cols: Dict<string, seq<real>>, stat: string, sqrt: real -> real): Result<Dict<string, Value>>
  {
    if cols == [] then Ok([])
    else
      var acc :- Averaged(cols[..|cols| - 1], stat, sqrt);
      var c := cols[|cols| - 1];
      var st :- ParseStat(stat);
      Ok(Put(Put(acc, c.0, MeanValue(c.1)), c.0 + " " + stat, Spread(st, c.1, sqrt)))
  }

  /** No key is another key followed by " stat". */
  predicate NoErrorKeys(ks: seq<string>, stat: string)
  {
    forall i, j :: 0 <= i < |ks| && 0 <= j < |ks| ==> ks[i] != ks[j] + " " + stat
  }

  lemma SuffixCancels(a: string, b: string, s: string)
    requires a + s == b + s
    ensures a == b
  {
    assert a == (a + s)[..|a|];
    assert b == (b + s)[..|b|];
  }

  lemma {:induction false} AveragedOk(cols: Dict<string, seq<real>>, stat: string, sqrt: real -> real)
    requires stat in STATS
    ensures Averaged(cols, stat, sqrt).Ok?
  {
    if cols != [] {
      AveragedOk(cols[..|cols| - 1], stat, sqrt);
    }
  }

  /** The first `n - 1` columns keep the key properties. */
  lemma InitColumns(cols: Dict<string, seq<real>>, stat: string, k: string)
    requires cols != [] && Valid(cols) && NoErrorKeys(Keys(cols), stat)
    ensures Valid(cols[..|cols| - 1]) && NoErrorKeys(Keys(cols[..|cols| - 1]), stat)
    ensures Has(cols, k) && k != cols[|cols| - 1].0 ==> Has(cols[..|cols| - 1], k)
    ensures Has(cols, k) ==> k != cols[|cols| - 1].0 + " " + stat && cols[|cols| - 1].0 != k + " " + stat
    ensures Has(cols, k) ==> Get(cols, k) == if k == cols[|cols| - 1].0 then cols[|cols| - 1].1 else Get(cols[..|cols| - 1], k)
  {
    var n := |cols|;
    assert forall i :: 0 <= i < n - 1 ==> Keys(cols[..n - 1])[i] == Keys(cols)[i];
    PrefixAll(cols);
    LookupPrefix(cols, n, k);
    if Has(cols, k) {
      var i :| 0 <= i < n && Keys(cols)[i] == k;
      assert Keys(cols)[n - 1] == cols[n - 1].0;
    }
  }

  /** With a known statistic, each column's key holds its mean. */
  lemma {:induction false} AveragedMean(cols: Dict<string, seq<real>>, stat: string, sqrt: real -> real, k: string)
    requires Valid(cols) && stat in STATS && NoErrorKeys(Keys(cols), stat) && Averaged(cols, stat, sqrt).Ok?
    ensures Has(cols, k) ==> Lookup(Averaged(cols, stat, sqrt).value, k) == Some(MeanValue(Get(cols, k)))
  {
    if cols != [] {
      var init := cols[..|cols| - 1];
      var c := cols[|cols| - 1];
      InitColumns(cols, stat, k);
      AveragedOk(init, stat, sqrt);
      AveragedMean(init, stat, sqrt, k);
      var acc := Averaged(init, stat, sqrt).value;
      var e := Spread(ParseStat(stat).value, c.1, sqrt);
      PutLookup(acc, c.0, MeanValue(c.1), k);
      PutLookup(Put(acc, c.0, MeanValue(c.1)), c.0 + " " + stat, e, k);
    }
  }

  /** With a known statistic, "key stat" holds each column's error statistic. */
  lemma {:induction false} AveragedError(cols: Dict<string, seq<real>>, stat: string, sqrt: real -> real, k: string)
    requires Valid(cols) && stat in STATS && NoErrorKeys(Keys(cols), stat) && Averaged(cols, stat, sqrt).Ok?
    ensures Has(cols, k) ==>
      Lookup(Averaged(cols, stat, sqrt).value, k + " " + stat) == Some(Spread(ParseStat(stat).value, Get(cols, k), sqrt))
  {
    if cols != [] {
      var init := cols[..|cols| - 1];
      var c := cols[|cols| - 1];
      InitColumns(cols, stat, k);
      AveragedOk(init, stat, sqrt);
      AveragedError(init, stat, sqrt, k);
      var acc := Averaged(init, stat, sqrt).value;
      var e := Spread(ParseStat(stat).value, c.1, sqrt);
      PutLookup(acc, c.0, MeanValue(c.1), k + " " + stat);
      PutLookup(Put(acc, c.0, MeanValue(c.1)), c.0 + " " + stat, e, k + " " + stat);
      if Has(cols, k) && k != c.0 && k + " " + stat == c.0 + " " + stat {
        SuffixCancels(k + " ", c.0 + " ", stat);
        SuffixCancels(k, c.0, " ");
      }
    }
  }

  /** `average_parameters` over the pixel tables of one direction. An
      empty list raises IndexError (`parameter_dicts[0]`). */
  function AverageParameters(dicts: seq<Params>, stat: string, sqrt: real -> real): Result<Dict<string, Value>>
  {
    if dicts == [] then Err(IndexError("list index out of range"))
    else
      var cols :- Gather(EmptyColumns(Keys(dicts[0])), dicts);
      Averaged(cols, stat, sqrt)
  }

  /** A key that the first pixel table lacks raises KeyError. */
  lemma AverageParametersKeyError(dicts: seq<Params>, stat: string, sqrt: real -> real)
    requires dicts != [] && !KeysWithin(dicts, Keys(dicts[0]))
    ensures AverageParameters(dicts, stat, sqrt).Err? && AverageParameters(dicts, stat, sqrt).error.KeyError?
  {
    GatherOk(EmptyColumns(Keys(dicts[0])), dicts);
  }

  /** An unknown statistic raises ValueError once there is a key. */
  lemma AverageParametersUnknownStat(dicts: seq<Params>, stat: string, sqrt: real -> real)
    requires dicts != [] && dicts[0] != [] && KeysWithin(dicts, Keys(dicts[0])) && stat !in STATS
    ensures AverageParameters(dicts, stat, sqrt) == Err(ValueError("Unknown stat: " + stat))
  {
    var start := EmptyColumns(Keys(dicts[0]));
    GatherOk(start, dicts);
    var g := Gather(start, dicts).value;
    assert g != [] by { assert |Keys(g)| == |dicts[0]|; }
    AveragedUnknown(g, stat, sqrt);
  }

  /** What `average_parameters` promises: each key of the first table
      holds the mean of its values over the tables holding it, and
      "key stat" their error statistic. */
  lemma AverageParametersMeaning(dicts: seq<Params>, stat: string, sqrt: real -> real, k: string)
    requires AllValid(dicts) && dicts != [] && Valid(dicts[0]) && NoErrorKeys(Keys(dicts[0]), stat)
    requires KeysWithin(dicts, Keys(dicts[0])) && stat in STATS && Has(dicts[0], k)
    ensures AverageParameters(dicts, stat, sqrt).Ok?
    ensures Column(dicts, k) != []
    ensures Lookup(AverageParameters(dicts, stat, sqrt).value, k) == Some(Finite(Mean(Column(dicts, k))))
    ensures Lookup(AverageParameters(dicts, stat, sqrt).value, k + " " + stat) ==
      Some(Spread(ParseStat(stat).value, Column(dicts, k), sqrt))
  {
    var start := EmptyColumns(Keys(dicts[0]));
    var g := GatheredColumn(dicts, k);
    assert AverageParameters(dicts, stat, sqrt) == Averaged(g, stat, sqrt);
    AveragedOk(g, stat, sqrt);
    AveragedMean(g, stat, sqrt, k);
    AveragedError(g, stat, sqrt, k);
  }

  /** Gathering from the first table's keys keeps them and collects each
      key's column. */
  lemma GatheredColumn(dicts: seq<Params>, k: string) returns (g: Dict<string, seq<real>>)
    requires AllValid(dicts) && dicts != [] && Valid(dicts[0])
    requires KeysWithin(dicts, Keys(dicts[0])) && Has(dicts[0], k)
    ensures Gather(EmptyColumns(Keys(dicts[0])), dicts) == Ok(g)
    ensures Keys(g) == Keys(dicts[0]) && Valid(g) && Has(g, k)
    ensures Column(dicts, k) != [] && Get(g, k) == Column(dicts, k)
  {
    var start := EmptyColumns(Keys(dicts[0]));
    GatherOk(start, dicts);
    g := Gather(start, dicts).value;
    GatherLookup(start, dicts, k);
    FirstInColumn(dicts, k);
    var i :| 0 <= i < |start| && Keys(start)[i] == k;
    StartEmpty(start, k, i);
    assert Get(start, k) + Column(dicts, k) == Column(dicts, k);
    assert Lookup(g, k) == Some(Column(dicts, k));
  }

  lemma StartEmpty(start: Dict<string, seq<real>>, k: string, i: nat)
    requires i < |start| && start[i].0 == k && forall j :: 0 <= j < |start| ==> start[j].1 == []
    ensures Has(start, k) && Get(start, k) == []
  {
    assert Keys(start)[i] == k;
    LookupIn(start, k);
  }

  /** The first table's value of a key it holds starts that key's column. */
  lemma {:induction false} FirstInColumn(dicts: seq<Params>, k: string)
    requires dicts != [] && Has(dicts[0], k)
    ensures Column(dicts, k) != []
  {
    if |dicts| > 1 {
      FirstInColumn(dicts[..|dicts| - 1], k);
    }
  }

  lemma {:induction false} AveragedUnknown(cols: Dict<string, seq<real>>, stat: string, sqrt: real -> real)
    requires cols != [] && stat !in STATS
    ensures Averaged(cols, stat, sqrt) == Err(ValueError("Unknown stat: " + stat))
  {
    if |cols| > 1 {
      AveragedUnknown(cols[..|cols| - 1], stat, sqrt);
    }
  }

  // ---------------------------------------------------------------------
  // `check_consistency`.

  /** `{pixel[key] for pixel in pixels if key in pixel}` reduced to its one
      element: the values of the pixels holding the key must all agree. No
      value at all raises KeyError (popping from an empty set), two
      different values ValueError. */
  function CheckConsistency<V(==)>(key: string, values: seq<V>): (r: Result<V>)
    ensures r.Ok? <==> values != [] && forall i :: 0 <= i < |values| ==> values[i] == values[0]
    ensures r.Ok? ==> r.value == values[0]
    ensures values == [] ==> r == Err(KeyError("pop from an empty set"))
    ensures values != [] && r.Err? ==> r == Err(ValueError("Inconsistent values for '" + key + "' across pixels."))
  {
    var distinct := set i | 0 <= i < |values| :: values[i];
    SetOfValues(values, distinct);
    if |distinct| > 1 then Err(ValueError("Inconsistent values for '" + key + "' across pixels."))
    else if distinct == {} then Err(KeyError("pop from an empty set"))
    else Ok(values[0])
  }

  /** The set of the values has at most one element exactly when they all agree. */
  lemma SetOfValues<V>(values: seq<V>, distinct: set<V>)
    requires distinct == set i | 0 <= i < |values| :: values[i]
    ensures distinct == {} <==> values == []
    ensures values != [] ==> (|distinct| <= 1 <==> forall i :: 0 <= i < |values| ==> values[i] == values[0])
  {
    if values != [] {
      assert values[0] in distinct;
      if forall i :: 0 <= i < |values| ==> values[i] == values[0] {
        assert distinct == {values[0]};
      } else {
        var i :| 0 <= i < |values| && values[i] != values[0];
        assert values[i] in distinct;
        var rest := distinct - {values[0]};
        assert values[i] in rest;
        assert |distinct| == |rest| + 1;
      }
    }
  }

  /** The values of the members that hold one. */
  function Somes<V(!new)>(os: seq<Option<V>>): (vs: seq<V>)
    ensures forall v :: v in vs <==> Some(v) in os
  {
    if os == [] then []
    else
      var prev := Somes(os[..|os| - 1]);
      var o := os[|os| - 1];
      assert os == os[..|os| - 1] + [o];
      prev + (if o.Some? then [o.value] else [])
  }

  // ---------------------------------------------------------------------
  // `merge_pixels`: the pixel tables of each direction.

  /** The directions whose tables `merge_pixels` averages, in order. */
  const DIRECTIONS: seq<string> := ["Forward", "Reverse", "Average"]

  /** `pixel['Parameters'][dir]` of a pixel of the folder, when it has one. */
  function TableOf(devs: Dict<string, Record>, p: string, dir: string): Option<Params>
  {
    match Lookup(devs, p)
    case None => None
    case Some(rec) => if rec.parameters.None? then None else Lookup(rec.parameters.value, dir)
  }

  /** Every pixel is in the folder and has its 'Parameters'. */
  predicate Ready(devs: Dict<string, Record>, pixels: seq<string>)
  {
    forall i :: 0 <= i < |pixels| ==> Lookup(devs, pixels[i]).Some? && Lookup(devs, pixels[i]).value.parameters.Some?
  }

  /** The list comprehension of one direction: the tables of the pixels
      holding it, in pixel order. A pixel missing from the folder raises
      KeyError with its name, one without 'Parameters' KeyError
      'Parameters'. */
  function Tables(devs: Dict<string, Record>, pixels: seq<string>, dir: string): Result<seq<Params>>
  {
    if pixels == [] then Ok([])
    else
      var init :- Tables(devs, pixels[..|pixels| - 1], dir);
      var p := pixels[|pixels| - 1];
      match Lookup(devs, p)
      case None => Err(KeyError(p))
      case Some(rec) =>
        if rec.parameters.None? then Err(KeyError("Parameters"))
        else Ok(init + (match Lookup(rec.parameters.value, dir) case Some(t) => [t] case None => []))
  }

  /** Each pixel's table of `dir`, if it has one. */
  function TablesOf(devs: Dict<string, Record>, pixels: seq<string>, dir: string): (os: seq<Option<Params>>)
    ensures |os| == |pixels| && forall i :: 0 <= i < |pixels| ==> os[i] == TableOf(devs, pixels[i], dir)
  {
    seq(|pixels|, i requires 0 <= i < |pixels| => TableOf(devs, pixels[i], dir))
  }

  /** A list of pixels is ready exactly when all but its last pixel are
      and the last one is in the folder with its 'Parameters'. */
  lemma ReadySnoc(devs: Dict<string, Record>, pixels: seq<string>)
    requires pixels != []
    ensures var n := |pixels|;
      Ready(devs, pixels) <==>
        (Ready(devs, pixels[..n - 1]) && Lookup(devs, pixels[n - 1]).Some? && Lookup(devs, pixels[n - 1]).value.parameters.Some?)
  {
    var n := |pixels|;
    assert forall i :: 0 <= i < n - 1 ==> pixels[..n - 1][i] == pixels[i];
  }

  /** The tables are collected exactly when every pixel is ready, and are
      then the pixels' tables of `dir` in order. */
  lemma {:induction false} TablesOk(devs: Dict<string, Record>, pixels: seq<string>, dir: string)
    ensures Tables(devs, pixels, dir).Ok? <==> Ready(devs, pixels)
    ensures Tables(devs, pixels, dir).Ok? ==> Tables(devs, pixels, dir).value == Somes(TablesOf(devs, pixels, dir))
  {
    if pixels != [] {
      var n := |pixels|;
      var init := pixels[..n - 1];
      TablesOk(devs, init, dir);
      ReadySnoc(devs, pixels);
      assert TablesOf(devs, pixels, dir)[..n - 1] == TablesOf(devs, init, dir);
    }
  }

  /** When the tables are not collected, the first pixel that is not ready
      decides the KeyError: its name when it is missing from the folder,
      'Parameters' otherwise. */
  lemma {:induction false} TablesErr(devs: Dict<string, Record>, pixels: seq<string>, dir: string)
    ensures Tables(devs, pixels, dir).Err? ==>
      exists i :: 0 <= i < |pixels| && Ready(devs, pixels[..i]) &&
        Tables(devs, pixels, dir) == Err(KeyError(if Lookup(devs, pixels[i]).None? then pixels[i] else "Parameters"))
  {
    if pixels != [] {
      var n := |pixels|;
      var init := pixels[..n - 1];
      TablesErr(devs, init, dir);
      if Tables(devs, init, dir).Err? {
        var i :| 0 <= i < n - 1 && Ready(devs, init[..i]) &&
          Tables(devs, init, dir) == Err(KeyError(if Lookup(devs, init[i]).None? then init[i] else "Parameters"));
        assert init[..i] == pixels[..i];
        assert Tables(devs, pixels, dir) == Tables(devs, init, dir);
      } else {
        TablesOk(devs, init, dir);
        assert pixels[..n - 1] == init;
      }
    }
  }

  /** The tables are collected exactly when every pixel is ready, and are
      then the pixels' tables of `dir` in order; otherwise the first pixel
      that is not ready decides the KeyError. */
  lemma TablesMeaning(devs: Dict<string, Record>, pixels: seq<string>, dir: string)
    ensures Tables(devs, pixels, dir).Ok? <==> Ready(devs, pixels)
    ensures Tables(devs, pixels, dir).Ok? ==> Tables(devs, pixels, dir).value == Somes(TablesOf(devs, pixels, dir))
    ensures Tables(devs, pixels, dir).Err? ==>
      exists i :: 0 <= i < |pixels| && Ready(devs, pixels[..i]) &&
        Tables(devs, pixels, dir) == Err(KeyError(if Lookup(devs, pixels[i]).None? then pixels[i] else "Parameters"))
  {
    TablesOk(devs, pixels, dir);
    TablesErr(devs, pixels, dir);
  }

  /** `date_data[pixel]` for every pixel, or KeyError for the first one
      missing from the folder. */
  function MembersOf(devs: Dict<string, Record>, pixels: seq<string>): (r: Result<seq<Record>>)
    ensures r.Ok? ==> |r.value| == |pixels| && forall i :: 0 <= i < |pixels| ==> Lookup(devs, pixels[i]) == Some(r.value[i])
    ensures (forall i :: 0 <= i < |pixels| ==> Lookup(devs, pixels[i]).Some?) ==> r.Ok?
  {
    if pixels == [] then Ok([])
    else
      var n := |pixels|;
      assert forall i :: 0 <= i < n - 1 ==> pixels[..n - 1][i] == pixels[i];
      var init :- MembersOf(devs, pixels[..n - 1]);
      match Lookup(devs, pixels[n - 1])
      case None => Err(KeyError(pixels[n - 1]))
      case Some(rec) => Ok(init + [rec])
  }

  // ---------------------------------------------------------------------
  // `merge_pixels`: the settings that must agree, and the H-index.

  /** The six keys that must agree across the pixels, in checking order:
      active area, distance to the light source, light intensity,
      'encoding', 'measurement device' and 'unit'. */
  datatype Settings = Settings(area: real, distance: real, light: real, encoding: Attr, device: Attr, unit: Attr)

  /** Some pixel holds the key, and all pixels holding it agree. */
  predicate Agree<V(==)>(os: seq<Option<V>>)
  {
    (exists i :: 0 <= i < |os| && os[i].Some?) &&
    forall i, j :: 0 <= i < |os| && 0 <= j < |os| && os[i].Some? && os[j].Some? ==> os[i].value == os[j].value
  }

  /** `check_consistency` on the values the pixels hold succeeds exactly
      when they agree, and then returns the common value. */
  lemma CheckSomes<V(!new)>(key: string, os: seq<Option<V>>)
    ensures CheckConsistency(key, Somes(os)).Ok? <==> Agree(os)
    ensures CheckConsistency(key, Somes(os)).Ok? ==>
      forall i :: 0 <= i < |os| && os[i].Some? ==> os[i].value == CheckConsistency(key, Somes(os)).value
  {
    var vs := Somes(os);
    if Agree(os) {
      var i :| 0 <= i < |os| && os[i].Some?;
      assert os[i] == Some(os[i].value);
      assert os[i].value in vs;
      forall k | 0 <= k < |vs| ensures vs[k] == vs[0] {
        assert Some(vs[k]) in os && Some(vs[0]) in os;
        var a :| 0 <= a < |os| && os[a] == Some(vs[k]);
        var b :| 0 <= b < |os| && os[b] == Some(vs[0]);
      }
    }
    if CheckConsistency(key, vs).Ok? {
      assert vs[0] in vs;
      forall i | 0 <= i < |os| && os[i].Some? ensures os[i].value == vs[0] {
        assert os[i] == Some(os[i].value);
        assert os[i].value in vs;
        var k :| 0 <= k < |vs| && vs[k] == os[i].value;
      }
      var a :| 0 <= a < |os| && os[a] == Some(vs[0]);
    }
  }

  function Areas(recs: seq<Record>): (os: seq<Option<real>>)
    ensures |os| == |recs| && forall i :: 0 <= i < |recs| ==> os[i] == recs[i].area
  {
    seq(|recs|, i requires 0 <= i < |recs| => recs[i].area)
  }

  function Distances(recs: seq<Record>): (os: seq<Option<real>>)
    ensures |os| == |recs| && forall i :: 0 <= i < |recs| ==> os[i] == recs[i].distance
  {
    seq(|recs|, i requires 0 <= i < |recs| => recs[i].distance)
  }

  function Lights(recs: seq<Record>): (os: seq<Option<real>>)
    ensures |os| == |recs| && forall i :: 0 <= i < |recs| ==> os[i] == recs[i].light
  {
    seq(|recs|, i requires 0 <= i < |recs| => recs[i].light)
  }

  function MetaOf(recs: seq<Record>, key: string): (os: seq<Option<Attr>>)
    ensures |os| == |recs| && forall i :: 0 <= i < |recs| ==> os[i] == Lookup(recs[i].meta, key)
  {
    seq(|recs|, i requires 0 <= i < |recs| => Lookup(recs[i].meta, key))
  }

  /** The loop over `keys_to_check`: the first key the pixels disagree on,
      or that none holds, stops the merge. */
  function Consistent(recs: seq<Record>): Result<Settings>
  {
    var area :- CheckConsistency(AREA, Somes(Areas(recs)));
    var distance :- CheckConsistency(DISTANCE, Somes(Distances(recs)));
    var light :- CheckConsistency(LIGHT, Somes(Lights(recs)));
    var encoding :- CheckConsistency("encoding", Somes(MetaOf(recs, "encoding")));
    var device :- CheckConsistency("measurement device", Somes(MetaOf(recs, "measurement device")));
    var unit :- CheckConsistency("unit", Somes(MetaOf(recs, "unit")));
    Ok(Settings(area, distance, light, encoding, device, unit))
  }

  /** The settings are merged exactly when the pixels agree on all six
      keys. */
  lemma ConsistentOk(recs: seq<Record>)
    ensures Consistent(recs).Ok? <==>
      Agree(Areas(recs)) && Agree(Distances(recs)) && Agree(Lights(recs)) &&
      Agree(MetaOf(recs, "encoding")) && Agree(MetaOf(recs, "measurement device")) && Agree(MetaOf(recs, "unit"))
  {
    CheckSomes(AREA, Areas(recs));
    CheckSomes(DISTANCE, Distances(recs));
    CheckSomes(LIGHT, Lights(recs));
    CheckSomes("encoding", MetaOf(recs, "encoding"));
    CheckSomes("measurement device", MetaOf(recs, "measurement device"));
    CheckSomes("unit", MetaOf(recs, "unit"));
  }

  /** Each merged setting is the value of every pixel holding that key. */
  lemma ConsistentValues(recs: seq<Record>, i: nat)
    requires Consistent(recs).Ok? && i < |recs|
    ensures recs[i].area.Some? ==> recs[i].area.value == Consistent(recs).value.area
    ensures recs[i].distance.Some? ==> recs[i].distance.value == Consistent(recs).value.distance
    ensures recs[i].light.Some? ==> recs[i].light.value == Consistent(recs).value.light
    ensures Lookup(recs[i].meta, "encoding").Some? ==>
      Lookup(recs[i].meta, "encoding").value == Consistent(recs).value.encoding
    ensures Lookup(recs[i].meta, "measurement device").Some? ==>
      Lookup(recs[i].meta, "measurement device").value == Consistent(recs).value.device
    ensures Lookup(recs[i].meta, "unit").Some? ==> Lookup(recs[i].meta, "unit").value == Consistent(recs).value.unit
  {
    CheckSomes(AREA, Areas(recs));
    CheckSomes(DISTANCE, Distances(recs));
    CheckSomes(LIGHT, Lights(recs));
    CheckSomes("encoding", MetaOf(recs, "encoding"));
    CheckSomes("measurement device", MetaOf(recs, "measurement device"));
    CheckSomes("unit", MetaOf(recs, "unit"));
  }

  function HIndexValues(recs: seq<Record>): (os: seq<Option<Value>>)
    ensures |os| == |recs| && forall i :: 0 <= i < |recs| ==> os[i] == recs[i].hIndex
  {
    seq(|recs|, i requires 0 <= i < |recs| => recs[i].hIndex)
  }

  /** `sum(h) / len(h)` over the pixels holding an H-index, None when no
      pixel does; a NaN or infinite value leaves the sum non-finite. */
  function HIndexMean(recs: seq<Record>): Option<Value>
  {
    var hs := Somes(HIndexValues(recs));
    if hs == [] then None
    else if NonFinite in hs then Some(NonFinite)
    else Some(Finite(Mean(seq(|hs|, k requires 0 <= k < |hs| => hs[k].x))))
  }

  /** The H-index is None exactly when no pixel has one, and non-finite
      when some pixel's is. */
  lemma HIndexPresent(recs: seq<Record>)
    ensures HIndexMean(recs).None? <==> forall i :: 0 <= i < |recs| ==> recs[i].hIndex.None?
    ensures (exists i :: 0 <= i < |recs| && recs[i].hIndex == Some(NonFinite)) ==> HIndexMean(recs) == Some(NonFinite)
  {
    var os := HIndexValues(recs);
    var hs := Somes(os);
    if exists i :: 0 <= i < |recs| && recs[i].hIndex.Some? {
      var i :| 0 <= i < |recs| && recs[i].hIndex.Some?;
      assert os[i] == Some(recs[i].hIndex.value);
      assert recs[i].hIndex.value in hs;
    }
    if hs != [] {
      assert hs[0] in hs;
      var i :| 0 <= i < |os| && os[i] == Some(hs[0]);
    }
    if exists i :: 0 <= i < |recs| && recs[i].hIndex == Some(NonFinite) {
      var i :| 0 <= i < |recs| && recs[i].hIndex == Some(NonFinite);
      assert os[i] == Some(NonFinite);
    }
  }

  /** With finite H-indices between `lo` and `hi`, their mean is finite and
      lies between them too. */
  lemma HIndexBounds(recs: seq<Record>, lo: real, hi: real)
    requires exists i :: 0 <= i < |recs| && recs[i].hIndex.Some?
    requires forall i :: 0 <= i < |recs| && recs[i].hIndex.Some? ==>
      recs[i].hIndex.value.Finite? && lo <= recs[i].hIndex.value.x <= hi
    ensures HIndexMean(recs).Some? && HIndexMean(recs).value.Finite?
    ensures lo <= HIndexMean(recs).value.x <= hi
  {
    HIndexPresent(recs);
    var os := HIndexValues(recs);
    var hs := Somes(os);
    forall k | 0 <= k < |hs| ensures hs[k].Finite? && lo <= hs[k].x <= hi {
      assert hs[k] in hs;
      var i :| 0 <= i < |os| && os[i] == Some(hs[k]);
    }
    assert NonFinite !in hs;
    var xs := seq(|hs|, k requires 0 <= k < |hs| => hs[k].x);
    MeanBounds(xs, lo, hi);
  }

  // ---------------------------------------------------------------------
  // `merge_pixels`: averaging the IV sweeps.

  /** `ns` extended by the names of `ks` it lacks, in order of first
      appearance. */
  function AddNew(ns: seq<string>, ks: seq<string>): (r: seq<string>)
    ensures Distinct(ns) ==> Distinct(r)
    ensures forall x :: x in r <==> x in ns || x in ks
  {
    if ks == [] then ns
    else
      var prev := AddNew(ns, ks[..|ks| - 1]);
      var k := ks[|ks| - 1];
      assert ks == ks[..|ks| - 1] + [k];
      if k in prev then prev else prev + [k]
  }

  /** Names already distinct from each other and from `ns` are all added. */
  lemma {:induction false} AddNewDistinct(ns: seq<string>, ks: seq<string>)
    requires Distinct(ns + ks)
    ensures AddNew(ns, ks) == ns + ks
  {
    if ks != [] {
      var n := |ks|;
      var init := ks[..n - 1];
      assert ns + ks == (ns + init) + [ks[n - 1]];
      assert Distinct(ns + init) by {
        assert forall i :: 0 <= i < |ns + init| ==> (ns + init)[i] == (ns + ks)[i];
      }
      AddNewDistinct(ns, init);
      assert ks[n - 1] !in ns + init by {
        assert forall i :: 0 <= i < |ns + init| ==> (ns + init)[i] == (ns + ks)[i];
        assert (ns + ks)[|ns| + n - 1] == ks[n - 1];
      }
    }
  }

  /** The sweep names of the pixels, each once; the source collects them in
      a set, which is modelled in order of first appearance. */
  function SweepNames(recs: seq<Record>): (ns: seq<string>)
    ensures Distinct(ns)
    ensures forall x :: x in ns <==> exists i :: 0 <= i < |recs| && Has(recs[i].data, x)
  {
    if recs == [] then []
    else
      var init := recs[..|recs| - 1];
      assert forall i :: 0 <= i < |init| ==> init[i] == recs[i];
      AddNew(SweepNames(init), Keys(recs[|recs| - 1].data))
  }

  /** The frames of sweep `name` of the pixels holding it, in pixel order. */
  function FramesWith(recs: seq<Record>, name: string): (fs: seq<Frame>)
    ensures forall f :: f in fs <==> exists i :: 0 <= i < |recs| && Lookup(recs[i].data, name) == Some(f)
  {
    if recs == [] then []
    else
      var init := recs[..|recs| - 1];
      assert forall i :: 0 <= i < |init| ==> init[i] == recs[i];
      FramesWith(init, name) + (match Lookup(recs[|recs| - 1].data, name) case Some(f) => [f] case None => [])
  }

  /** Some pixel holds the sweep exactly when it has frames. */
  lemma FramesWithEmpty(recs: seq<Record>, name: string)
    ensures FramesWith(recs, name) == [] <==> forall i :: 0 <= i < |recs| ==> !Has(recs[i].data, name)
  {
    var fs := FramesWith(recs, name);
    if fs != [] {
      assert fs[0] in fs;
    }
    if exists i :: 0 <= i < |recs| && Has(recs[i].data, name) {
      var i :| 0 <= i < |recs| && Has(recs[i].data, name);
      assert Lookup(recs[i].data, name).value in fs;
    }
  }

  /** `lengths.index(max(lengths))`: the first of the longest frames. */
  function Longest(fs: seq<Frame>): (k: nat)
    requires fs != []
    ensures k < |fs|
    ensures forall j :: 0 <= j < |fs| ==> |fs[j]| <= |fs[k]|
    ensures forall j :: 0 <= j < k ==> |fs[j]| < |fs[k]|
  {
    if |fs| == 1 then 0
    else
      var k := Longest(fs[..|fs| - 1]);
      if |fs[|fs| - 1]| > |fs[k]| then |fs| - 1 else k
  }

  /** The currents of row `k` of the frames that reach it, in frame order. */
  function CurrentsAt(fs: seq<Frame>, k: nat): (cs: seq<real>)
    ensures cs == [] <==> forall j :: 0 <= j < |fs| ==> |fs[j]| <= k
    ensures forall x :: x in cs ==> exists j :: 0 <= j < |fs| && k < |fs[j]| && x == fs[j][k].i
    ensures forall j :: 0 <= j < |fs| && k < |fs[j]| ==> fs[j][k].i in cs
  {
    if fs == [] then []
    else
      var init := fs[..|fs| - 1];
      var f := fs[|fs| - 1];
      assert forall j :: 0 <= j < |init| ==> init[j] == fs[j];
      CurrentsAt(init, k) + (if k < |f| then [f[k].i] else [])
  }

  /** The averaged sweep: the voltages of the first longest frame, and at
      each row the mean current of the frames reaching that row. */
  function MergedSweep(fs: seq<Frame>): (r: Frame)
    requires fs != []
    ensures forall j :: 0 <= j < |fs| ==> |fs[j]| <= |r|
    ensures exists j :: 0 <= j < |fs| && |fs[j]| == |r|
    ensures Voltages(r) == Voltages(fs[Longest(fs)])
  {
    var v := fs[Longest(fs)];
    seq(|v|, k requires 0 <= k < |v| => Sample(v[k].v, Mean(CurrentsAt(fs, k))))
  }

  /** Averaging identical frames gives that frame back. */
  lemma MergeIdentical(fs: seq<Frame>, f: Frame)
    requires fs != [] && forall j :: 0 <= j < |fs| ==> fs[j] == f
    ensures MergedSweep(fs) == f
  {
    var r := MergedSweep(fs);
    assert |r| == |f|;
    forall k | 0 <= k < |f| ensures r[k] == f[k] {
      var cs := CurrentsAt(fs, k);
      forall m | 0 <= m < |cs| ensures cs[m] == f[k].i {
        assert cs[m] in cs;
      }
      MeanOfIdentical(cs, f[k].i);
    }
  }

  /** Each averaged current lies within the bounds of the pixels' currents. */
  lemma MergedCurrentBounds(fs: seq<Frame>, lo: real, hi: real)
    requires fs != []
    requires forall j, k :: 0 <= j < |fs| && 0 <= k < |fs[j]| ==> lo <= fs[j][k].i <= hi
    ensures forall k :: 0 <= k < |MergedSweep(fs)| ==> lo <= MergedSweep(fs)[k].i <= hi
  {
    var r := MergedSweep(fs);
    forall k | 0 <= k < |r| ensures lo <= r[k].i <= hi {
      var cs := CurrentsAt(fs, k);
      forall m | 0 <= m < |cs| ensures lo <= cs[m] <= hi {
        assert cs[m] in cs;
      }
      MeanBounds(cs, lo, hi);
    }
  }

  /** The averaged sweep of every name the pixels hold, over `names`. */
  function MergedFrom(recs: seq<Record>, names: seq<string>): Dict<string, Frame>
  {
    if names == [] then []
    else
      var prev := MergedFrom(recs, names[..|names| - 1]);
      var n := names[|names| - 1];
      var fs := FramesWith(recs, n);
      if fs == [] then prev else Put(prev, n, MergedSweep(fs))
  }

  /** `merged['data']`. */
  function MergedData(recs: seq<Record>): Dict<string, Frame>
  {
    MergedFrom(recs, SweepNames(recs))
  }

  lemma {:induction false} MergedFromLookup(recs: seq<Record>, names: seq<string>, n: string)
    ensures Lookup(MergedFrom(recs, names), n) ==
      if n in names && FramesWith(recs, n) != [] then Some(MergedSweep(FramesWith(recs, n))) else None
  {
    if names != [] {
      var init := names[..|names| - 1];
      var last := names[|names| - 1];
      MergedFromLookup(recs, init, n);
      assert n in names <==> n in init || n == last by {
        assert names == init + [last];
      }
      var fs := FramesWith(recs, last);
      if fs != [] {
        PutLookup(MergedFrom(recs, init), last, MergedSweep(fs), n);
      }
    }
  }

  /** A sweep name some pixel holds maps to the average of the pixels'
      frames of it; any other name is absent. */
  lemma MergedDataLookup(recs: seq<Record>, n: string)
    ensures Lookup(MergedData(recs), n) ==
      if exists i :: 0 <= i < |recs| && Has(recs[i].data, n) then Some(MergedSweep(FramesWith(recs, n))) else None
  {
    MergedFromLookup(recs, SweepNames(recs), n);
    FramesWithEmpty(recs, n);
  }

  /** The loop over the frames of one sweep: each row's current is the
      mean of the currents of the frames long enough to have that row. */
  method AverageCurrents(fs: seq<Frame>) returns (r: Frame)
    requires fs != []
    ensures r == MergedSweep(fs)
  {
    var lengths := seq(|fs|, j requires 0 <= j < |fs| => |fs[j]|);
    var v: Frame;
    if exists j :: 0 <= j < |fs| && lengths[j] != lengths[0] {
      v := fs[Longest(fs)];
    } else {
      assert lengths[Longest(fs)] == lengths[0];
      assert Longest(fs) == 0;
      v := fs[0];
    }
    ghost var merged := MergedSweep(fs);
    assert |merged| == |v|;
    r := [];
    for index := 0 to |v|
      invariant r == merged[..index]
    {
      var iValues := RowCurrents(fs, index);
      if iValues != [] {
        assert merged[index] == Sample(v[index].v, Mean(iValues));
        PrefixSnoc(merged, index + 1);
        r := r + [Sample(v[index].v, Mean(iValues))];
      } else {
        assert false;
      }
    }
    assert merged[..|v|] == merged;
  }

  /** `i_values` of one row: the currents of the frames reaching it. */
  method RowCurrents(fs: seq<Frame>, index: nat) returns (iValues: seq<real>)
    ensures iValues == CurrentsAt(fs, index)
  {
    iValues := [];
    for j := 0 to |fs|
      invariant iValues == CurrentsAt(fs[..j], index)
    {
      PrefixSnoc(fs, j + 1);
      if index < |fs[j]| {
        iValues := iValues + [fs[j][index].i];
      }
    }
    PrefixAll(fs);
  }

  /** The inner loop over the pixels: the frames of sweep `name`. */
  method CollectFrames(recs: seq<Record>, name: string) returns (fs: seq<Frame>)
    ensures fs == FramesWith(recs, name)
  {
    fs := [];
    for j := 0 to |recs|
      invariant fs == FramesWith(recs[..j], name)
    {
      PrefixSnoc(recs, j + 1);
      var found := Lookup(recs[j].data, name);
      if found.Some? {
        fs := fs + [found.value];
      }
    }
    PrefixAll(recs);
  }

  /** The collection of the sweep names and the loop over them. */
  method MergeSweeps(recs: seq<Record>) returns (data: Dict<string, Frame>)
    ensures data == MergedData(recs)
  {
    var names: seq<string> := [];
    for j := 0 to |recs|
      invariant names == SweepNames(recs[..j])
    {
      PrefixSnoc(recs, j + 1);
      names := AddNew(names, Keys(recs[j].data));
    }
    PrefixAll(recs);
    data := [];
    for m := 0 to |names|
      invariant data == MergedFrom(recs, names[..m])
    {
      PrefixSnoc(names, m + 1);
      var frames := CollectFrames(recs, names[m]);
      if frames != [] {
        var sweep := AverageCurrents(frames);
        data := Put(data, names[m], sweep);
      }
    }
    PrefixAll(names);
  }

  // ---------------------------------------------------------------------
  // `merge_pixels`: the file list and the whole merge.

  /** `xs` with later repeats dropped. */
  function Dedupe<T(==, !new)>(xs: seq<T>): (r: seq<T>)
    ensures Distinct(r)
    ensures forall x :: x in r <==> x in xs
  {
    if xs == [] then []
    else
      var prev := Dedupe(xs[..|xs| - 1]);
      var x := xs[|xs| - 1];
      assert xs == xs[..|xs| - 1] + [x];
      if x in prev then prev else prev + [x]
  }

  function UsedValues(recs: seq<Record>): (os: seq<Option<UsedFiles>>)
    ensures |os| == |recs| && forall i :: 0 <= i < |recs| ==> os[i] == recs[i].used
  {
    seq(|recs|, i requires 0 <= i < |recs| => recs[i].used)
  }

  /** `list(set(used_files))` over the pixels holding 'Used files'. A
      pixel's value that is itself a list cannot go into a set and raises
      TypeError. The set's order is modelled as first appearance. */
  function UsedOf(recs: seq<Record>): Result<seq<DF.Used>>
  {
    var us := Somes(UsedValues(recs));
    if exists u :: u in us && u.Many? then Err(TypeError("unhashable type: 'list'"))
    else Ok(Dedupe(seq(|us|, k requires 0 <= k < |us| => us[k].file)))
  }

  /** The file list is collected exactly when no pixel holds a list, and
      then holds each pixel's file once. */
  lemma UsedOfMeaning(recs: seq<Record>)
    ensures UsedOf(recs).Ok? <==> forall i :: 0 <= i < |recs| ==> recs[i].used.None? || recs[i].used.value.One?
    ensures UsedOf(recs).Ok? ==> Distinct(UsedOf(recs).value)
    ensures UsedOf(recs).Ok? ==>
      forall u :: u in UsedOf(recs).value <==> exists i :: 0 <= i < |recs| && recs[i].used == Some(One(u))
  {
    UsedOfFails(recs);
    if UsedOf(recs).Ok? {
      UsedOfFiles(recs);
    }
  }

  /** A pixel holding a list is what makes the collection fail. */
  lemma UsedOfFails(recs: seq<Record>)
    ensures UsedOf(recs).Ok? <==> forall i :: 0 <= i < |recs| ==> recs[i].used.None? || recs[i].used.value.One?
  {
    var os := UsedValues(recs);
    SomesMany(os);
    if exists i :: 0 <= i < |os| && os[i].Some? && os[i].value.Many? {
      var i :| 0 <= i < |os| && os[i].Some? && os[i].value.Many?;
      assert recs[i].used == os[i];
    }
  }

  /** A list among the present values is a list at some position. */
  lemma SomesMany(os: seq<Option<UsedFiles>>)
    ensures (exists u :: u in Somes(os) && u.Many?) <==> exists i :: 0 <= i < |os| && os[i].Some? && os[i].value.Many?
  {
    var us := Somes(os);
    if exists i :: 0 <= i < |os| && os[i].Some? && os[i].value.Many? {
      var i :| 0 <= i < |os| && os[i].Some? && os[i].value.Many?;
      assert os[i] == Some(os[i].value);
      assert os[i].value in us;
    }
    if exists u :: u in us && u.Many? {
      var u :| u in us && u.Many?;
      var i :| 0 <= i < |os| && os[i] == Some(u);
    }
  }

  /** The collected files are each pixel's single file. */
  lemma UsedOfFiles(recs: seq<Record>)
    requires UsedOf(recs).Ok?
    ensures forall u :: u in UsedOf(recs).value <==> exists i :: 0 <= i < |recs| && recs[i].used == Some(One(u))
  {
    var os := UsedValues(recs);
    var us := Somes(os);
    var files := seq(|us|, k requires 0 <= k < |us| => us[k].file);
    assert UsedOf(recs).value == Dedupe(files);
    forall u ensures u in files <==> exists i :: 0 <= i < |recs| && recs[i].used == Some(One(u)) {
      if u in files {
        var k :| 0 <= k < |us| && files[k] == u;
        assert us[k] in us;
        var i :| 0 <= i < |os| && os[i] == Some(us[k]);
      }
      if exists i :: 0 <= i < |recs| && recs[i].used == Some(One(u)) {
        var i :| 0 <= i < |recs| && recs[i].used == Some(One(u));
        assert os[i] == Some(One(u));
        assert One(u) in us;
        var k :| 0 <= k < |us| && us[k] == One(u);
        assert files[k] == u;
      }
    }
  }

  /** The merged record of one substrate. */
  datatype Substrate = Substrate(
    parameters: Dict<string, Dict<string, Value>>,
    settings: Settings,
    hIndex: Option<Value>,
    data: Dict<string, Frame>,
    used: seq<DF.Used>)

  /** The loop over the three directions: each one's averaged tables. */
  function DirectionAverages(devs: Dict<string, Record>, pixels: seq<string>, stat: string, sqrt: real -> real)
    : Result<Dict<string, Dict<string, Value>>>
  {
    var fwdTables :- Tables(devs, pixels, "Forward");
    var fwd :- AverageParameters(fwdTables, stat, sqrt);
    var revTables :- Tables(devs, pixels, "Reverse");
    var rev :- AverageParameters(revTables, stat, sqrt);
    var avgTables :- Tables(devs, pixels, "Average");
    var avg :- AverageParameters(avgTables, stat, sqrt);
    Ok([("Forward", fwd), ("Reverse", rev), ("Average", avg)])
  }

  /** The rest of the merge, on the member records: the agreeing settings,
      the H-index, the sweeps and the file list. */
  function MergeMembers(parameters: Dict<string, Dict<string, Value>>, recs: seq<Record>): Result<Substrate>
  {
    var settings :- Consistent(recs);
    var used :- UsedOf(recs);
    Ok(Substrate(parameters, settings, HIndexMean(recs), MergedData(recs), used))
  }

  /** `merge_pixels(folder, pixels)` on the folder's devices `devs`, in the
      source's order of evaluation. */
  function MergeOf(devs: Dict<string, Record>, pixels: seq<string>, stat: string, sqrt: real -> real): Result<Substrate>
  {
    var parameters :- DirectionAverages(devs, pixels, stat, sqrt);
    var recs :- MembersOf(devs, pixels);
    MergeMembers(parameters, recs)
  }

  /** A pixel missing from the folder, or one without 'Parameters', stops
      the merge with the KeyError of the first such pixel. */
  lemma MergeOfNotReady(devs: Dict<string, Record>, pixels: seq<string>, stat: string, sqrt: real -> real)
    requires !Ready(devs, pixels)
    ensures exists i :: (0 <= i < |pixels| && Ready(devs, pixels[..i]) &&
      MergeOf(devs, pixels, stat, sqrt) == Err(KeyError(if Lookup(devs, pixels[i]).None? then pixels[i] else "Parameters")))
  {
    TablesMeaning(devs, pixels, "Forward");
  }

  // ---------------------------------------------------------------------
  // Merging a single pixel gives that pixel back.

  lemma {:induction false} MergedFromOne(rec: Record, m: nat)
    requires Valid(rec.data) && m <= |rec.data|
    ensures MergedFrom([rec], Keys(rec.data)[..m]) == rec.data[..m]
  {
    if m > 0 {
      MergedFromOne(rec, m - 1);
      MergedFromOneStep(rec, m);
    }
  }

  /** A single pixel's frames of its own sweep are that sweep alone. */
  lemma FramesOfOne(rec: Record, k: nat)
    requires Valid(rec.data) && k < |rec.data|
    ensures FramesWith([rec], rec.data[k].0) == [rec.data[k].1]
  {
    LookupAt(rec.data, k);
    assert [rec][..0] == [];
  }

  /** One sweep more of a single pixel keeps the merge equal to its own. */
  lemma MergedFromOneStep(rec: Record, m: nat)
    requires Valid(rec.data) && 0 < m <= |rec.data|
    requires MergedFrom([rec], Keys(rec.data)[..m - 1]) == rec.data[..m - 1]
    ensures MergedFrom([rec], Keys(rec.data)[..m]) == rec.data[..m]
  {
    var d := rec.data;
    var names := Keys(d)[..m];
    assert names[..m - 1] == Keys(d)[..m - 1];
    var last := d[m - 1].0;
    assert names[m - 1] == last;
    FramesOfOne(rec, m - 1);
    MergeIdentical([d[m - 1].1], d[m - 1].1);
    LastKeyFresh(d, m);
    PutNew(d[..m - 1], last, d[m - 1].1);
    PrefixSnoc(d, m);
  }

  /** The sweeps of a single pixel are its own. */
  lemma MergedDataOne(rec: Record)
    requires Valid(rec.data)
    ensures MergedData([rec]) == rec.data
  {
    var ks := Keys(rec.data);
    assert [rec][..0] == [];
    assert [] + ks == ks;
    AddNewDistinct([], ks);
    assert SweepNames([rec]) == ks;
    MergedFromOne(rec, |rec.data|);
    assert ks[..|rec.data|] == ks;
    PrefixAll(rec.data);
  }

  /** The H-index of a single pixel is its own. */
  lemma HIndexOne(rec: Record)
    ensures HIndexMean([rec]) == rec.hIndex
  {
    var os := HIndexValues([rec]);
    assert os[..0] == [];
    assert Somes(os) == if rec.hIndex.Some? then [rec.hIndex.value] else [];
    if rec.hIndex.Some? && rec.hIndex.value.Finite? {
      var xs := [rec.hIndex.value.x];
      assert xs[..0] == [];
      assert Sum(xs) == rec.hIndex.value.x;
    }
  }

  /** The file list of a single pixel is its own file. */
  lemma UsedOne(rec: Record)
    requires UsedOf([rec]).Ok?
    ensures rec.used.Some? ==> rec.used.value.One? && UsedOf([rec]).value == [rec.used.value.file]
    ensures rec.used.None? ==> UsedOf([rec]).value == []
  {
    var os := UsedValues([rec]);
    assert os[..0] == [];
    assert os == [rec.used];
    assert Somes(os[..0]) == [];
    var us := Somes(os);
    assert us == if rec.used.Some? then [rec.used.value] else [];
    if rec.used.Some? {
      assert rec.used.value in us;
      assert rec.used.value.One?;
      var files := seq(|us|, k requires 0 <= k < |us| => us[k].file);
      assert files == [rec.used.value.file];
      assert files[..0] == [];
      assert Dedupe(files) == files;
    }
  }

  /** A successful merge is made of the members' agreeing settings,
      H-index, sweeps and file list. */
  lemma MergeOfParts(devs: Dict<string, Record>, pixels: seq<string>, stat: string, sqrt: real -> real, m: Substrate)
    requires MergeOf(devs, pixels, stat, sqrt) == Ok(m)
    ensures MembersOf(devs, pixels).Ok?
    ensures Consistent(MembersOf(devs, pixels).value) == Ok(m.settings)
    ensures UsedOf(MembersOf(devs, pixels).value) == Ok(m.used)
    ensures m.hIndex == HIndexMean(MembersOf(devs, pixels).value)
    ensures m.data == MergedData(MembersOf(devs, pixels).value)
  {
    var recs := MembersOf(devs, pixels).value;
    assert MergeMembers(DirectionAverages(devs, pixels, stat, sqrt).value, recs) == Ok(m);
  }

  /** Merging one pixel keeps its settings, H-index, sweeps and file. */
  lemma MergeOnePixel(devs: Dict<string, Record>, p: string, stat: string, sqrt: real -> real, rec: Record, m: Substrate)
    requires MergeOf(devs, [p], stat, sqrt) == Ok(m) && Lookup(devs, p) == Some(rec) && Valid(rec.data)
    ensures rec.area == Some(m.settings.area) && rec.distance == Some(m.settings.distance)
    ensures rec.light == Some(m.settings.light)
    ensures rec.hIndex == m.hIndex && rec.data == m.data
    ensures rec.used.Some? ==> rec.used.value.One? && m.used == [rec.used.value.file]
    ensures rec.used.None? ==> m.used == []
  {
    MergeOfParts(devs, [p], stat, sqrt, m);
    MembersOne(devs, p, rec);
    SettingsOne(rec, m.settings);
    HIndexOne(rec);
    MergedDataOne(rec);
    UsedOne(rec);
  }

  lemma MembersOne(devs: Dict<string, Record>, p: string, rec: Record)
    requires Lookup(devs, p) == Some(rec)
    ensures MembersOf(devs, [p]) == Ok([rec])
  {
    assert [p][..0] == [];
    assert MembersOf(devs, []) == Ok([]);
    assert [] + [rec] == [rec];
  }

  /** The settings of a single pixel are its own. */
  lemma SettingsOne(rec: Record, s: Settings)
    requires Consistent([rec]) == Ok(s)
    ensures rec.area == Some(s.area) && rec.distance == Some(s.distance) && rec.light == Some(s.light)
  {
    ConsistentOk([rec]);
    ConsistentValues([rec], 0);
  }

  /** A successful merge holds, for each direction in order, the average
      of the pixels' tables of that direction. */
  lemma MergeOfParameters(devs: Dict<string, Record>, pixels: seq<string>, stat: string, sqrt: real -> real, m: Substrate, i: nat)
    requires MergeOf(devs, pixels, stat, sqrt) == Ok(m) && i < |DIRECTIONS|
    ensures Tables(devs, pixels, DIRECTIONS[i]).Ok?
    ensures AverageParameters(Tables(devs, pixels, DIRECTIONS[i]).value, stat, sqrt).Ok?
    ensures |m.parameters| == |DIRECTIONS|
    ensures m.parameters[i] == (DIRECTIONS[i], AverageParameters(Tables(devs, pixels, DIRECTIONS[i]).value, stat, sqrt).value)
  {
    var ps := DirectionAverages(devs, pixels, stat, sqrt).value;
    assert m.parameters == ps;
    DirectionAveragesParts(devs, pixels, stat, sqrt, ps, i);
  }

  lemma DirectionAveragesParts(devs: Dict<string, Record>, pixels: seq<string>, stat: string, sqrt: real -> real,
                               ps: Dict<string, Dict<string, Value>>, i: nat)
    requires DirectionAverages(devs, pixels, stat, sqrt) == Ok(ps) && i < |DIRECTIONS|
    ensures Tables(devs, pixels, DIRECTIONS[i]).Ok?
    ensures AverageParameters(Tables(devs, pixels, DIRECTIONS[i]).value, stat, sqrt).Ok?
    ensures |ps| == |DIRECTIONS|
    ensures ps[i] == (DIRECTIONS[i], AverageParameters(Tables(devs, pixels, DIRECTIONS[i]).value, stat, sqrt).value)
  {
    var dir := DIRECTIONS[i];
    var fwd := AverageParameters(Tables(devs, pixels, "Forward").value, stat, sqrt).value;
    var rev := AverageParameters(Tables(devs, pixels, "Reverse").value, stat, sqrt).value;
    var avg := AverageParameters(Tables(devs, pixels, "Average").value, stat, sqrt).value;
    assert ps == [("Forward", fwd), ("Reverse", rev), ("Average", avg)];
  }

  /** Merging one pixel keeps each of its parameters as the mean. */
  lemma MergeOnePixelParameters(devs: Dict<string, Record>, p: string, stat: string, sqrt: real -> real, m: Substrate,
                                i: nat, t: Params, k: string)
    requires MergeOf(devs, [p], stat, sqrt) == Ok(m) && i < |DIRECTIONS| && TableOf(devs, p, DIRECTIONS[i]) == Some(t)
    requires Valid(t) && NoErrorKeys(Keys(t), stat) && Has(t, k)
    ensures |m.parameters| == |DIRECTIONS| && m.parameters[i].0 == DIRECTIONS[i]
    ensures Lookup(m.parameters[i].1, k) == Some(Finite(Get(t, k)))
  {
    MergeOfParameters(devs, [p], stat, sqrt, m, i);
    TablesOne(devs, p, DIRECTIONS[i], t);
    if stat !in STATS {
      assert t != [] by { assert k in Keys(t); }
      AverageParametersUnknownStat([t], stat, sqrt);
      assert false;
    }
    AverageOne(t, stat, sqrt, k);
  }

  lemma TablesOne(devs: Dict<string, Record>, p: string, dir: string, t: Params)
    requires TableOf(devs, p, dir) == Some(t)
    ensures Tables(devs, [p], dir) == Ok([t])
  {
    assert [p][..0] == [];
    var rec := Lookup(devs, p).value;
    assert rec.parameters.Some? && Lookup(rec.parameters.value, dir) == Some(t);
    assert [] + [t] == [t];
  }

  /** Averaging a single table gives its values back. */
  lemma AverageOne(t: Params, stat: string, sqrt: real -> real, k: string)
    requires Valid(t) && NoErrorKeys(Keys(t), stat) && Has(t, k) && stat in STATS
    ensures AverageParameters([t], stat, sqrt).Ok?
    ensures Lookup(AverageParameters([t], stat, sqrt).value, k) == Some(Finite(Get(t, k)))
  {
    SingleTable(t, k);
    AverageParametersMeaning([t], stat, sqrt, k);
    MeanOne(Get(t, k));
  }

  lemma SingleTable(t: Params, k: string)
    requires Has(t, k)
    ensures AllValid([t]) == Valid(t) && KeysWithin([t], Keys([t][0]))
    ensures Column([t], k) == [Get(t, k)]
  {
    assert [t][..0] == [];
    forall i, j | 0 <= i < 1 && 0 <= j < |[t][i]| ensures [t][i][j].0 in Keys(t) {
      assert Keys(t)[j] == t[j].0;
    }
    assert Column([t], k) == [] + [Get(t, k)];
  }

  lemma MeanOne(x: real)
    ensures Mean([x]) == x
  {
    assert [x][..0] == [];
    assert Sum([x]) == x;
  }

  // ---------------------------------------------------------------------
  // `merge_substrates`.

  /** An entry of `merged_data[folder]`: a substrate's merged record, or an
      ungrouped device's record as it was. */
  datatype Entry = Merged(substrate: Substrate) | Kept(record: Record)

  /** `{name: devices[name] for name in group if name in devices}`: the
      group's pixels present in the folder, each once, in group order. */
  function PresentPixels(devs: Dict<string, Record>, group: seq<string>): (ps: seq<string>)
    ensures Distinct(ps)
    ensures forall x :: x in ps <==> x in group && Has(devs, x)
  {
    if group == [] then []
    else
      var prev := PresentPixels(devs, group[..|group| - 1]);
      var g := group[|group| - 1];
      assert group == group[..|group| - 1] + [g];
      if Has(devs, g) && g !in prev then prev + [g] else prev
  }

  /** The first loop of one folder: each substrate with a pixel in the
      folder gets its merged record, in substrate order. */
  function SubstrateLoop(devs: Dict<string, Record>, subs: Dict<string, seq<string>>, stat: string, sqrt: real -> real)
    : Result<Dict<string, Entry>>
  {
    if subs == [] then Ok([])
    else
      var prev :- SubstrateLoop(devs, subs[..|subs| - 1], stat, sqrt);
      var name := subs[|subs| - 1].0;
      var ps := PresentPixels(devs, subs[|subs| - 1].1);
      if ps == [] then Ok(prev)
      else
        var m :- MergeOf(devs, ps, stat, sqrt);
        Ok(Put(prev, name, Merged(m)))
  }

  /** The device is a pixel of some substrate. */
  predicate InSomeGroup(subs: Dict<string, seq<string>>, d: string)
  {
    exists i :: 0 <= i < |subs| && d in subs[i].1
  }

  /** The second loop of one folder: every device in no substrate is kept
      as it is. */
  function KeepLoop(acc: Dict<string, Entry>, devs: Dict<string, Record>, subs: Dict<string, seq<string>>): Dict<string, Entry>
  {
    if devs == [] then acc
    else
      var prev := KeepLoop(acc, devs[..|devs| - 1], subs);
      var d := devs[|devs| - 1];
      if InSomeGroup(subs, d.0) then prev else Put(prev, d.0, Kept(d.1))
  }

  /** `merged_for_date` of one folder. */
  function FolderMerge(devs: Dict<string, Record>, subs: Dict<string, seq<string>>, stat: string, sqrt: real -> real)
    : Result<Dict<string, Entry>>
  {
    var merged :- SubstrateLoop(devs, subs, stat, sqrt);
    Ok(KeepLoop(merged, devs, subs))
  }

  /** The loop over the folders, from `merged_data` as `acc`: the state it
      leaves and whether it finished. A failing folder stops it, the
      folders before it already written. */
  function MergeFolders(acc: Dict<string, Dict<string, Entry>>, folders: Folders, subs: Dict<string, seq<string>>,
                        stat: string, sqrt: real -> real): (Dict<string, Dict<string, Entry>>, Result<()>)
  {
    if folders == [] then (acc, Ok(()))
    else
      var prev := MergeFolders(acc, folders[..|folders| - 1], subs, stat, sqrt);
      var f := folders[|folders| - 1];
      if prev.1.Err? then prev
      else match FolderMerge(f.1, subs, stat, sqrt)
        case Err(e) => (prev.0, Err(e))
        case Ok(m) => (Put(prev.0, f.0, m), Ok(()))
  }

  lemma {:induction false} SubstrateLoopLookup(devs: Dict<string, Record>, subs: Dict<string, seq<string>>,
                                                stat: string, sqrt: real -> real, s: string)
    requires Valid(subs) && SubstrateLoop(devs, subs, stat, sqrt).Ok?
    ensures Has(subs, s) && PresentPixels(devs, Get(subs, s)) != [] ==>
      (MergeOf(devs, PresentPixels(devs, Get(subs, s)), stat, sqrt).Ok? &&
       Lookup(SubstrateLoop(devs, subs, stat, sqrt).value, s) ==
         Some(Merged(MergeOf(devs, PresentPixels(devs, Get(subs, s)), stat, sqrt).value)))
    ensures !(Has(subs, s) && PresentPixels(devs, Get(subs, s)) != []) ==>
      Lookup(SubstrateLoop(devs, subs, stat, sqrt).value, s) == None
  {
    if subs != [] {
      var n := |subs|;
      var init := subs[..n - 1];
      assert Valid(init) by {
        assert forall i :: 0 <= i < n - 1 ==> Keys(init)[i] == Keys(subs)[i];
      }
      SubstrateLoopLookup(devs, init, stat, sqrt, s);
      LookupPrefix(subs, n, s);
      PrefixAll(subs);
      var ps := PresentPixels(devs, subs[n - 1].1);
      if ps != [] {
        PutLookup(SubstrateLoop(devs, init, stat, sqrt).value, subs[n - 1].0, Merged(MergeOf(devs, ps, stat, sqrt).value), s);
      }
    }
  }

  /** The first loop fails exactly when merging some substrate with a pixel
      in the folder fails. */
  /** Merging the group's pixels present in the folder, if any, succeeds. */
  predicate GroupMerges(devs: Dict<string, Record>, group: seq<string>, stat: string, sqrt: real -> real)
  {
    PresentPixels(devs, group) != [] ==> MergeOf(devs, PresentPixels(devs, group), stat, sqrt).Ok?
  }

  lemma SubstrateLoopStep(devs: Dict<string, Record>, subs: Dict<string, seq<string>>, stat: string, sqrt: real -> real)
    requires subs != []
    ensures SubstrateLoop(devs, subs, stat, sqrt).Ok? <==>
      SubstrateLoop(devs, subs[..|subs| - 1], stat, sqrt).Ok? && GroupMerges(devs, subs[|subs| - 1].1, stat, sqrt)
  {
  }

  lemma {:induction false} SubstrateLoopOk(devs: Dict<string, Record>, subs: Dict<string, seq<string>>, stat: string, sqrt: real -> real)
    ensures SubstrateLoop(devs, subs, stat, sqrt).Ok? <==>
      forall i :: 0 <= i < |subs| ==> GroupMerges(devs, subs[i].1, stat, sqrt)
  {
    if subs != [] {
      var n := |subs|;
      var init := subs[..n - 1];
      SubstrateLoopOk(devs, init, stat, sqrt);
      assert forall i :: 0 <= i < n - 1 ==> init[i] == subs[i];
      SubstrateLoopStep(devs, subs, stat, sqrt);
      assert (forall i :: 0 <= i < n ==> GroupMerges(devs, subs[i].1, stat, sqrt)) <==>
        (forall i :: 0 <= i < n - 1 ==> GroupMerges(devs, init[i].1, stat, sqrt)) && GroupMerges(devs, subs[n - 1].1, stat, sqrt);
    }
  }

  lemma {:induction false} KeepLoopLookup(acc: Dict<string, Entry>, devs: Dict<string, Record>, subs: Dict<string, seq<string>>, d: string)
    requires Valid(devs)
    ensures Lookup(KeepLoop(acc, devs, subs), d) ==
      if Has(devs, d) && !InSomeGroup(subs, d) then Some(Kept(Get(devs, d))) else Lookup(acc, d)
  {
    if devs != [] {
      var n := |devs|;
      var init := devs[..n - 1];
      assert Valid(init) by {
        assert forall i :: 0 <= i < n - 1 ==> Keys(init)[i] == Keys(devs)[i];
      }
      KeepLoopLookup(acc, init, subs, d);
      LookupPrefix(devs, n, d);
      PrefixAll(devs);
      if !InSomeGroup(subs, devs[n - 1].0) {
        PutLookup(KeepLoop(acc, init, subs), devs[n - 1].0, Kept(devs[n - 1].1), d);
      }
    }
  }

  /** A device in no substrate is kept unchanged under its own name. */
  lemma UngroupedKept(devs: Dict<string, Record>, subs: Dict<string, seq<string>>, stat: string, sqrt: real -> real, d: string)
    requires Valid(devs) && FolderMerge(devs, subs, stat, sqrt).Ok?
    requires Has(devs, d) && !InSomeGroup(subs, d)
    ensures Lookup(FolderMerge(devs, subs, stat, sqrt).value, d) == Some(Kept(Get(devs, d)))
  {
    KeepLoopLookup(SubstrateLoop(devs, subs, stat, sqrt).value, devs, subs, d);
  }

  /** A pixel of a substrate does not appear under its own name, unless a
      substrate has that name. */
  lemma GroupedDropped(devs: Dict<string, Record>, subs: Dict<string, seq<string>>, stat: string, sqrt: real -> real, d: string)
    requires Valid(devs) && Valid(subs) && FolderMerge(devs, subs, stat, sqrt).Ok?
    requires InSomeGroup(subs, d) && !Has(subs, d)
    ensures Lookup(FolderMerge(devs, subs, stat, sqrt).value, d) == None
  {
    var merged := SubstrateLoop(devs, subs, stat, sqrt).value;
    KeepLoopLookup(merged, devs, subs, d);
    SubstrateLoopLookup(devs, subs, stat, sqrt, d);
  }

  /** A substrate with a pixel in the folder gets the merge of its present
      pixels, unless an ungrouped device has the substrate's name. */
  lemma SubstrateEmitted(devs: Dict<string, Record>, subs: Dict<string, seq<string>>, stat: string, sqrt: real -> real, s: string)
    requires Valid(devs) && Valid(subs) && FolderMerge(devs, subs, stat, sqrt).Ok?
    requires Has(subs, s) && PresentPixels(devs, Get(subs, s)) != []
    requires !(Has(devs, s) && !InSomeGroup(subs, s))
    ensures MergeOf(devs, PresentPixels(devs, Get(subs, s)), stat, sqrt).Ok?
    ensures Lookup(FolderMerge(devs, subs, stat, sqrt).value, s) ==
      Some(Merged(MergeOf(devs, PresentPixels(devs, Get(subs, s)), stat, sqrt).value))
  {
    var merged := SubstrateLoop(devs, subs, stat, sqrt).value;
    KeepLoopLookup(merged, devs, subs, s);
    SubstrateLoopLookup(devs, subs, stat, sqrt, s);
    SubstrateLoopOk(devs, subs, stat, sqrt);
    LookupIn(subs, s);
    var i :| 0 <= i < |subs| && subs[i] == (s, Get(subs, s));
  }

  lemma {:induction false} SubstrateLoopStaysFailed(devs: Dict<string, Record>, subs: Dict<string, seq<string>>, n: nat,
                                                     stat: string, sqrt: real -> real)
    requires n <= |subs| && SubstrateLoop(devs, subs[..n], stat, sqrt).Err?
    ensures SubstrateLoop(devs, subs, stat, sqrt) == SubstrateLoop(devs, subs[..n], stat, sqrt)
    decreases |subs| - n
  {
    if n < |subs| {
      PrefixSnoc(subs, n + 1);
      SubstrateLoopStaysFailed(devs, subs, n + 1, stat, sqrt);
    } else {
      PrefixAll(subs);
    }
  }

  lemma {:induction false} MergeFoldersStaysFailed(acc: Dict<string, Dict<string, Entry>>, folders: Folders, n: nat,
                                                    subs: Dict<string, seq<string>>, stat: string, sqrt: real -> real)
    requires n <= |folders| && MergeFolders(acc, folders[..n], subs, stat, sqrt).1.Err?
    ensures MergeFolders(acc, folders, subs, stat, sqrt) == MergeFolders(acc, folders[..n], subs, stat, sqrt)
    decreases |folders| - n
  {
    if n < |folders| {
      PrefixSnoc(folders, n + 1);
      MergeFoldersStaysFailed(acc, folders, n + 1, subs, stat, sqrt);
    } else {
      PrefixAll(folders);
    }
  }

  /** A finished run writes each folder's merge under the folder's name and
      leaves other names as they were. */
  lemma {:induction false} MergeFoldersLookup(acc: Dict<string, Dict<string, Entry>>, folders: Folders,
                                               subs: Dict<string, seq<string>>, stat: string, sqrt: real -> real, f: string)
    requires Valid(folders) && MergeFolders(acc, folders, subs, stat, sqrt).1.Ok?
    ensures Has(folders, f) ==>
      (FolderMerge(Get(folders, f), subs, stat, sqrt).Ok? &&
       Lookup(MergeFolders(acc, folders, subs, stat, sqrt).0, f) == Some(FolderMerge(Get(folders, f), subs, stat, sqrt).value))
    ensures !Has(folders, f) ==> Lookup(MergeFolders(acc, folders, subs, stat, sqrt).0, f) == Lookup(acc, f)
  {
    if folders != [] {
      var n := |folders|;
      var init := folders[..n - 1];
      assert Valid(init) by {
        assert forall i :: 0 <= i < n - 1 ==> Keys(init)[i] == Keys(folders)[i];
      }
      MergeFoldersLookup(acc, init, subs, stat, sqrt, f);
      LookupPrefix(folders, n, f);
      PrefixAll(folders);
      var prev := MergeFolders(acc, init, subs, stat, sqrt);
      var m := FolderMerge(folders[n - 1].1, subs, stat, sqrt).value;
      PutLookup(prev.0, folders[n - 1].0, m, f);
    }
  }

  /** The merger of one run: the matched folders, the substrate layout, the
      statistic chosen in the application, and the merged folders. */
  class PixelMerger {
    var data: Folders
    var substrates: Dict<string, seq<string>>
    var mergedData: Dict<string, Dict<string, Entry>>
    var stat: string

    /** Stores the inputs, with nothing merged yet. */
    constructor (data: Folders, substrates: Dict<string, seq<string>>, stat: string)
      ensures this.data == data && this.substrates == substrates && this.stat == stat
      ensures mergedData == []
    {
      this.data := data;
      this.substrates := substrates;
      this.stat := stat;
      mergedData := [];
    }

    /** Construction followed by the merge, as the initialiser runs it; an
        error leaves the folders merged before the failing one. */
    static method Create(data: Folders, substrates: Dict<string, seq<string>>, stat: string, sqrt: real -> real)
      returns (merger: PixelMerger, r: Result<()>)
      requires Valid(data)
      ensures fresh(merger)
      ensures merger.data == data && merger.substrates == substrates && merger.stat == stat
      ensures (merger.mergedData, r) == MergeFolders([], data, substrates, stat, sqrt)
    {
      merger := new PixelMerger(data, substrates, stat);
      r := merger.MergeSubstrates(sqrt);
    }

    /** `merge_pixels(folder, pixels)`: KeyError for an unknown folder,
        otherwise the merge of the pixels' records. */
    method MergePixels(folder: string, pixels: seq<string>, sqrt: real -> real) returns (r: Result<Substrate>)
      ensures Lookup(data, folder).None? ==> r == Err(KeyError(folder))
      ensures Lookup(data, folder).Some? ==> r == MergeOf(Lookup(data, folder).value, pixels, stat, sqrt)
    {
      var found := Lookup(data, folder);
      if found.None? {
        return Err(KeyError(folder));
      }
      var devs := found.value;
      var parameters :- DirectionAverages(devs, pixels, stat, sqrt);
      var recs :- MembersOf(devs, pixels);
      var settings :- Consistent(recs);
      var sweeps := MergeSweeps(recs);
      var used :- UsedOf(recs);
      r := Ok(Substrate(parameters, settings, HIndexMean(recs), sweeps, used));
    }

    /** `merged_for_date` of one folder: the substrates with a pixel in the
        folder, then the devices in no substrate. */
    method MergeFolder(folder: string, devs: Dict<string, Record>, sqrt: real -> real) returns (r: Result<Dict<string, Entry>>)
      requires Lookup(data, folder) == Some(devs)
      ensures r == FolderMerge(devs, substrates, stat, sqrt)
    {
      var merged: Dict<string, Entry> := [];
      for k := 0 to |substrates|
        invariant SubstrateLoop(devs, substrates[..k], stat, sqrt) == Ok(merged)
      {
        PrefixSnoc(substrates, k + 1);
        var ps := PresentPixels(devs, substrates[k].1);
        if ps != [] {
          var m := MergePixels(folder, ps, sqrt);
          if m.Err? {
            SubstrateLoopStaysFailed(devs, substrates, k + 1, stat, sqrt);
            return Err(m.error);
          }
          merged := Put(merged, substrates[k].0, Merged(m.value));
        }
      }
      PrefixAll(substrates);
      ghost var first := merged;
      for k := 0 to |devs|
        invariant merged == KeepLoop(first, devs[..k], substrates)
      {
        PrefixSnoc(devs, k + 1);
        if !InSomeGroup(substrates, devs[k].0) {
          merged := Put(merged, devs[k].0, Kept(devs[k].1));
        }
      }
      PrefixAll(devs);
      r := Ok(merged);
    }

    /** `merge_substrates`: every folder's merge stored under its name, in
        folder order; the first failing folder stops the loop. */
    method MergeSubstrates(sqrt: real -> real) returns (r: Result<()>)
      requires Valid(data)
      modifies this
      ensures data == old(data) && substrates == old(substrates) && stat == old(stat)
      ensures (mergedData, r) == MergeFolders(old(mergedData), data, substrates, stat, sqrt)
    {
      for k := 0 to |data|
        invariant data == old(data) && substrates == old(substrates) && stat == old(stat)
        invariant MergeFolders(old(mergedData), data[..k], substrates, stat, sqrt) == (mergedData, Ok(()))
      {
        PrefixSnoc(data, k + 1);
        LookupAt(data, k);
        var m := MergeFolder(data[k].0, data[k].1, sqrt);
        if m.Err? {
          MergeFoldersStaysFailed(old(mergedData), data, k + 1, substrates, stat, sqrt);
          return Err(m.error);
        }
        mergedData := Put(mergedData, data[k].0, m.value);
      }
      PrefixAll(data);
      r := Ok(());
    }
  }
}
