/** Helpers of the first revision (instruments.py at the top level): column
    swap, first sign change of a column and the folder path string. */
module LegacyInstruments {
  import opened Wrappers
  import opened Dicts
  import opened Strs

  /** A DataFrame as its columns in column order. */
  class Table {
    var cols: Dict<string, seq<real>>

    constructor (cols: Dict<string, seq<real>>)
      ensures this.cols == cols
    {
      this.cols := cols;
    }
  }

  function Negated(xs: seq<real>): (r: seq<real>)
    ensures |r| == |xs| && forall k :: 0 <= k < |xs| ==> r[k] == -xs[k]
  {
    seq(|xs|, k requires 0 <= k < |xs| => -xs[k])
  }

  function IndexOf(ks: seq<string>, k: string): (i: nat)
    requires k in ks
    ensures i < |ks| && ks[i] == k && forall j :: 0 <= j < i ==> ks[j] != k
  {
    if ks[0] == k then 0 else 1 + IndexOf(ks[1..], k)
  }

  /** The column order with the entries at positions `x` and `y` exchanged. */
  function SwapAt<T>(s: seq<T>, x: nat, y: nat): (r: seq<T>)
    requires x < |s| && y < |s|
    ensures |r| == |s|
    ensures r[x] == s[y] && r[y] == s[x]
    ensures forall j :: 0 <= j < |s| && j != x && j != y ==> r[j] == s[j]
  {
    s[x := s[y]][y := s[x]]
  }

  /** `columns_swap(df, col1, col2)`: negates `col2` in the caller's frame,
      then returns a frame whose column order has `col1` and `col2` exchanged.
      A missing column raises KeyError before anything changes. */
  method ColumnsSwap(df: Table, col1: string, col2: string) returns (r: Result<Dict<string, seq<real>>>)
    requires Valid(df.cols)
    modifies df
    ensures r.Err? <==> !Has(old(df.cols), col1) || !Has(old(df.cols), col2)
    ensures r.Err? ==> df.cols == old(df.cols)
    ensures r.Ok? ==> df.cols == Put(old(df.cols), col2, Negated(Get(old(df.cols), col2)))
    ensures r.Ok? ==> (Has(df.cols, col1) && Has(df.cols, col2)
                       && r.value == SwapAt(df.cols, IndexOf(Keys(df.cols), col1), IndexOf(Keys(df.cols), col2)))
  {
    if !Has(df.cols, col2) {
      return Err(KeyError(col2));
    }
    if !Has(df.cols, col1) {
      return Err(KeyError(col1));
    }
    df.cols := Put(df.cols, col2, Negated(Get(df.cols, col2)));
    PutKeys(old(df.cols), col2, Negated(Get(old(df.cols), col2)));
    var ks := Keys(df.cols);
    var x, y := IndexOf(ks, col1), IndexOf(ks, col2);
    r := Ok(SwapAt(df.cols, x, y));
  }

  /** After the swap, `col1` sits where `col2` was and holds its old values,
      `col2` sits where `col1` was and holds its negated values, and every
      other column keeps its place and its values. */
  lemma ColumnsSwapLayout(cols: Dict<string, seq<real>>, col1: string, col2: string)
    requires Valid(cols) && Has(cols, col1) && Has(cols, col2)
    ensures var neg := Put(cols, col2, Negated(Get(cols, col2)));
      var x, y := IndexOf(Keys(cols), col1), IndexOf(Keys(cols), col2);
      Keys(neg) == Keys(cols)
      && var out := SwapAt(neg, x, y);
      && out[x] == (col2, Negated(Get(cols, col2)))
      && (col1 != col2 ==> out[y] == (col1, Get(cols, col1)))
      && forall j :: 0 <= j < |cols| && j != x && j != y ==> out[j] == cols[j]
  {
    var neg := Put(cols, col2, Negated(Get(cols, col2)));
    PutKeys(cols, col2, Negated(Get(cols, col2)));
    PutReplaces(cols, col2, Negated(Get(cols, col2)));
    var x, y := IndexOf(Keys(cols), col1), IndexOf(Keys(cols), col2);
    LookupFirst(cols, x);
  }

  lemma LookupFirst<K, V>(d: Dict<K, V>, p: nat)
    requires p < |d| && Valid(d)
    ensures Lookup(d, d[p].0) == Some(d[p].1)
  {
    if p > 0 {
      ValidTail(d);
      assert Keys(d)[0] != Keys(d)[p];
      LookupFirst(d[1..], p - 1);
    }
  }

  // ---------------------------------------------------------------------
  // axis_crossing

  /** `np.sign`. */
  function Sign(x: real): int
  {
    if x < 0.0 then -1 else if x > 0.0 then 1 else 0
  }

  /** The first row at or after `k` whose sign differs from the row before it. */
  function FirstSignChange(col: seq<real>, k: nat): (r: Option<nat>)
    requires 1 <= k <= |col|
    ensures r.Some? ==> k <= r.value < |col| && Sign(col[r.value]) != Sign(col[r.value - 1])
    ensures r.Some? ==> forall j :: k <= j < r.value ==> Sign(col[j]) == Sign(col[j - 1])
    ensures r.None? ==> forall j :: k <= j < |col| ==> Sign(col[j]) == Sign(col[j - 1])
    decreases |col| - k
  {
    if k == |col| then None
    else if Sign(col[k]) != Sign(col[k - 1]) then Some(k)
    else FirstSignChange(col, k + 1)
  }

  /** `axis_crossing(df, col_name)` on a column with the default 0-based index:
      row 0 always differs from its missing predecessor and is dropped; an
      empty column raises IndexError at `df.index[0]`. */
  function AxisCrossing(col: seq<real>): (r: Result<Option<nat>>)
    ensures r.Err? <==> col == []
    ensures r.Ok? && r.value.Some? ==> var k := r.value.value;
      0 < k < |col| && Sign(col[k]) != Sign(col[k - 1]) && forall j :: 0 < j < k ==> Sign(col[j]) == Sign(col[0])
    ensures r.Ok? && r.value.None? ==> forall j :: 0 <= j < |col| ==> Sign(col[j]) == Sign(col[0])
  {
    if col == [] then Err(IndexError("index 0 is out of bounds"))
    else
      var r := FirstSignChange(col, 1);
      SameSignRun(col, if r.Some? then r.value else |col|);
      Ok(r)
  }

  lemma {:induction false} SameSignRun(col: seq<real>, k: nat)
    requires 1 <= k <= |col|
    requires forall j :: 1 <= j < k ==> Sign(col[j]) == Sign(col[j - 1])
    ensures forall j :: 0 <= j < k ==> Sign(col[j]) == Sign(col[0])
  {
    if k > 1 {
      SameSignRun(col, k - 1);
      assert Sign(col[k - 1]) == Sign(col[k - 2]);
    }
  }

  // ---------------------------------------------------------------------
  // create_folder

  /** The path `create_folder(path, suffix)` returns (and creates when it is
      missing): a non-empty suffix gets a trailing '/'. */
  function CreateFolder(path: string, suffix: string): (r: string)
    ensures StartsWith(r, path + suffix)
    ensures suffix != [] ==> EndsWith(r, "/")
    ensures |r| == |path| + |suffix| + (if suffix != [] && !EndsWith(suffix, "/") then 1 else 0)
  {
    if suffix != [] && !EndsWith(suffix, "/") then path + suffix + "/" else path + suffix
  }
}
