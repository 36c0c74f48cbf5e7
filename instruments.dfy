/** Helper arithmetic of the current revision (JV_plotter_GUI/instruments.py):
    orientation flip, Excel column letters, banded rounding, recursive removal
    of 'data' keys and natural sorting of inner keys. */
module Instruments {
  import opened Wrappers
  import opened Dicts
  import opened Frames

  // ---------------------------------------------------------------------
  // flip_data_if_necessary

  /** Whether V must be negated: V at the first sample of least |I| is negative. */
  predicate FlipV(f: Frame)
    requires |f| > 0
  {
    f[ArgMin(AbsAll(Currents(f)))].v < 0.0
  }

  /** Whether I must be negated: I at the first sample of least |V| is negative. */
  predicate FlipI(f: Frame)
    requires |f| > 0
  {
    f[ArgMin(AbsAll(Voltages(f)))].i < 0.0
  }

  function FlipSample(s: Sample, negV: bool, negI: bool): Sample
  {
    Sample(if negV then -s.v else s.v, if negI then -s.i else s.i)
  }

  /** The table after `flip_data_if_necessary`; both tests read the unflipped data. */
  function Flipped(f: Frame): (r: Frame)
    requires |f| > 0
    ensures |r| == |f|
  {
    var negV, negI := FlipV(f), FlipI(f);
    seq(|f|, k requires 0 <= k < |f| => FlipSample(f[k], negV, negI))
  }

  /** Flipping changes signs only: |V| and |I| are kept sample by sample, and a
      column changes exactly when its test fires. */
  lemma FlippedSamples(f: Frame, k: nat)
    requires k < |f|
    ensures Abs(Flipped(f)[k].v) == Abs(f[k].v) && Abs(Flipped(f)[k].i) == Abs(f[k].i)
    ensures Flipped(f)[k].v == (if FlipV(f) then -f[k].v else f[k].v)
    ensures Flipped(f)[k].i == (if FlipI(f) then -f[k].i else f[k].i)
  {
  }

  /** Flipping keeps the |I| and |V| columns, so both tests pick the same
      samples again. */
  lemma FlipKeepsMagnitudes(f: Frame)
    requires |f| > 0
    ensures AbsAll(Currents(Flipped(f))) == AbsAll(Currents(f))
    ensures AbsAll(Voltages(Flipped(f))) == AbsAll(Voltages(f))
  {
    var g := Flipped(f);
    assert forall k :: 0 <= k < |f| ==> AbsAll(Currents(g))[k] == AbsAll(Currents(f))[k];
    assert forall k :: 0 <= k < |f| ==> AbsAll(Voltages(g))[k] == AbsAll(Voltages(f))[k];
  }

  /** After a flip, V at the least-|I| sample and I at the least-|V| sample are
      non-negative, so a second flip changes nothing. */
  lemma FlipIdempotent(f: Frame)
    requires |f| > 0
    ensures Flipped(Flipped(f)) == Flipped(f)
  {
    var g := Flipped(f);
    FlipKeepsMagnitudes(f);
    assert !FlipV(g);
    assert !FlipI(g);
  }

  /** `flip_data_if_necessary(df)`: overwrites the V and I columns in place.
      `idxmin` on an empty table raises ValueError. */
  method FlipDataIfNecessary(a: array<Sample>) returns (r: Result<()>)
    modifies a
    ensures r.Err? <==> a.Length == 0
    ensures r.Ok? ==> a[..] == Flipped(old(a[..]))
    ensures r.Err? ==> a[..] == old(a[..])
  {
    if a.Length == 0 {
      return Err(ValueError("attempt to get argmin of an empty sequence"));
    }
    ghost var before := a[..];
    var negV, negI := FlipV(a[..]), FlipI(a[..]);
    for k := 0 to a.Length
      invariant forall j :: 0 <= j < k ==> a[j] == FlipSample(before[j], negV, negI)
      invariant forall j :: k <= j < a.Length ==> a[j] == before[j]
    {
      a[k] := FlipSample(a[k], negV, negI);
    }
    ghost var flipped := Flipped(before);
    assert forall j :: 0 <= j < a.Length ==> flipped[j] == FlipSample(before[j], negV, negI);
    assert a[..] == flipped;
    r := Ok(());
  }

  // ---------------------------------------------------------------------
  // row_to_excel_col

  function Letter(d: nat): char
    requires d < 26
  {
    (65 + d) as char
  }

  /** Bijective base-26 numeral of `n` in the letters A..Z. */
  function ExcelColumn(n: nat): (s: string)
    ensures n == 0 <==> s == []
  {
    if n == 0 then [] else ExcelColumn((n - 1) / 26) + [Letter((n - 1) % 26)]
  }

  /** The number a column name stands for: its decoder. */
  function ColumnNumber(s: string): nat
    requires forall c :: c in s ==> 'A' <= c <= 'Z'
  {
    if s == [] then 0
    else
      var init, last := s[..|s| - 1], s[|s| - 1];
      assert last in s && forall c :: c in init ==> c in s;
      ColumnNumber(init) * 26 + ((last as int) - 64)
  }

  lemma {:induction false} ExcelColumnLetters(n: nat)
    ensures forall c :: c in ExcelColumn(n) ==> 'A' <= c <= 'Z'
  {
    if n > 0 {
      ExcelColumnLetters((n - 1) / 26);
    }
  }

  /** Decoding the column name gives the number back. */
  lemma {:induction false} ColumnRoundTrip(n: nat)
    ensures forall c :: c in ExcelColumn(n) ==> 'A' <= c <= 'Z'
    ensures ColumnNumber(ExcelColumn(n)) == n
  {
    ExcelColumnLetters(n);
    if n > 0 {
      ColumnRoundTrip((n - 1) / 26);
      var s := ExcelColumn(n);
      assert s[..|s| - 1] == ExcelColumn((n - 1) / 26);
    }
  }

  /** The quotient and remainder of a number written with a last base-26 digit. */
  lemma DigitOf(q: nat, d: nat)
    requires d < 26
    ensures (q * 26 + d) / 26 == q && (q * 26 + d) % 26 == d
  {
  }

  /** Every name over A..Z is the column name of its number, so the encoding is
      a bijection between the naturals and the texts over A..Z. */
  lemma {:induction false} ColumnNameRoundTrip(s: string)
    requires forall c :: c in s ==> 'A' <= c <= 'Z'
    ensures ExcelColumn(ColumnNumber(s)) == s
  {
    if s != [] {
      var init := s[..|s| - 1];
      assert forall c :: c in init ==> c in s;
      ColumnNameRoundTrip(init);
      assert s[|s| - 1] in s;
      var d := (s[|s| - 1] as int) - 65;
      var q := ColumnNumber(init);
      var n := ColumnNumber(s);
      assert 0 <= d < 26 && n == q * 26 + d + 1;
      DigitOf(q, d);
      assert ExcelColumn(n) == ExcelColumn(q) + [Letter(d)];
      assert s == init + [Letter(d)];
    }
  }

  lemma ExcelColumnSamples()
    ensures ExcelColumn(1) == "A" && ExcelColumn(26) == "Z" && ExcelColumn(27) == "AA"
    ensures ExcelColumn(0) == ""
  {
    assert ExcelColumn(1) == ExcelColumn(0) + [Letter(0)];
    assert ExcelColumn(27) == ExcelColumn(1) + [Letter(0)];
  }

  /** `row_to_excel_col(row_num)`: the while loop that prepends one letter per
      base-26 digit. */
  method RowToExcelCol(rowNum: nat) returns (col: string)
    ensures col == ExcelColumn(rowNum)
    ensures forall c :: c in col ==> 'A' <= c <= 'Z'
    ensures ColumnNumber(col) == rowNum
  {
    col := "";
    var n := rowNum;
    while n != 0
      invariant ExcelColumn(n) + col == ExcelColumn(rowNum)
    {
      var remainder := (n - 1) % 26;
      col := [Letter(remainder)] + col;
      n := (n - 1) / 26;
    }
    ColumnRoundTrip(rowNum);
  }

  // ---------------------------------------------------------------------
  // custom_round

  /** `math.ceil`. */
  function Ceil(x: real): int
  {
    -((-x).Floor)
  }

  /** The rounding step of the band `x` falls in. */
  function RoundStep(x: real): int
  {
    if x <= 9.0 then 1
    else if x <= 99.0 then 5
    else if x <= 999.0 then 50
    else if x <= 9999.0 then 100
    else 10
  }

  /** `custom_round(max_value)`. */
  function CustomRound(x: real): int
  {
    if x <= 9.0 then Ceil(x)
    else if x <= 99.0 then Ceil(x / 5.0) * 5
    else if x <= 999.0 then Ceil(x / 50.0) * 50
    else if x <= 9999.0 then Ceil(x / 100.0) * 100
    else Ceil(x / 10.0) * 10
  }

  lemma CeilOfQuotient(x: real, step: int)
    requires step > 0
    ensures (Ceil(x / step as real) * step) as real >= x
    ensures (Ceil(x / step as real) * step - step) as real < x
  {
    var q := x / step as real;
    assert q * step as real == x;
    var c := Ceil(q);
    assert c as real >= q && (c - 1) as real < q;
    assert (c * step) as real == c as real * step as real;
  }

  /** `custom_round` gives the least multiple of the band's step that is at
      least the input. */
  lemma CustomRoundLeastMultiple(x: real)
    ensures CustomRound(x) % RoundStep(x) == 0
    ensures CustomRound(x) as real >= x
    ensures (CustomRound(x) - RoundStep(x)) as real < x
  {
    var step := RoundStep(x);
    CeilOfQuotient(x, step);
    assert x / 1.0 == x;
  }

  // ---------------------------------------------------------------------
  // remove_data_key

  /** A nested mapping whose leaves are values of type L. */
  datatype Nested<L> = Leaf(val: L) | Node(entries: seq<(string, Nested<L>)>)

  /** No mapping at any depth holds the key 'data'. */
  predicate NoDataKey<L>(t: Nested<L>)
    decreases t, 1, 0
  {
    t.Node? ==> NoDataKeyFrom(t, 0)
  }

  predicate NoDataKeyFrom<L>(t: Nested<L>, i: nat)
    requires t.Node? && i <= |t.entries|
    decreases t, 0, |t.entries| - i
  {
    i < |t.entries| ==> t.entries[i].0 != "data" && NoDataKey(t.entries[i].1) && NoDataKeyFrom(t, i + 1)
  }

  /** `remove_data_key`, applied to any value of a mapping: a mapping is
      rebuilt without 'data', a leaf is kept. */
  function Strip<L>(t: Nested<L>): Nested<L>
    decreases t, 1, 0
  {
    match t
    case Leaf(_) => t
    case Node(_) => Node(StripFrom(t, 0))
  }

  function StripFrom<L>(t: Nested<L>, i: nat): seq<(string, Nested<L>)>
    requires t.Node? && i <= |t.entries|
    decreases t, 0, |t.entries| - i
  {
    if i == |t.entries| then []
    else if t.entries[i].0 == "data" then StripFrom(t, i + 1)
    else [(t.entries[i].0, Strip(t.entries[i].1))] + StripFrom(t, i + 1)
  }

  /** `remove_data_key(d)` for a mapping `d`. */
  function RemoveDataKey<L>(d: seq<(string, Nested<L>)>): seq<(string, Nested<L>)>
  {
    StripFrom(Node(d), 0)
  }

  lemma {:induction false} StripFromNoData<L>(t: Nested<L>, i: nat)
    requires t.Node? && i <= |t.entries|
    ensures NoDataKeyFrom(Node(StripFrom(t, i)), 0)
    decreases t, 0, |t.entries| - i
  {
    if i < |t.entries| {
      StripFromNoData(t, i + 1);
      var rest := StripFrom(t, i + 1);
      if t.entries[i].0 != "data" {
        StripNoData(t.entries[i].1);
        var u := Node([(t.entries[i].0, Strip(t.entries[i].1))] + rest);
        ShiftNoData(u, Node(rest), 1, 0);
      }
    }
  }

  lemma {:induction false} StripNoData<L>(t: Nested<L>)
    ensures NoDataKey(Strip(t))
    decreases t, 1, 0
  {
    if t.Node? {
      StripFromNoData(t, 0);
    }
  }

  /** `u`'s entries from `i` on are `w`'s entries from `j` on. */
  lemma {:induction false} ShiftNoData<L>(u: Nested<L>, w: Nested<L>, i: nat, j: nat)
    requires u.Node? && w.Node? && i <= |u.entries| && j <= |w.entries|
    requires u.entries[i..] == w.entries[j..]
    requires NoDataKeyFrom(w, j)
    ensures NoDataKeyFrom(u, i)
    decreases |u.entries| - i
  {
    if i < |u.entries| {
      assert u.entries[i] == w.entries[j];
      assert u.entries[i + 1..] == w.entries[j + 1..];
      ShiftNoData(u, w, i + 1, j + 1);
    }
  }

  /** The result of `remove_data_key` holds no 'data' key at any depth. */
  lemma RemoveDataKeyNoData<L>(d: seq<(string, Nested<L>)>)
    ensures NoDataKeyFrom(Node(RemoveDataKey(d)), 0)
  {
    StripFromNoData(Node(d), 0);
  }

  /** Every other key is kept, in order, with its leaf value or its
      recursively cleaned mapping. */
  lemma {:induction false} RemoveDataKeyKeeps<L>(t: Nested<L>, i: nat)
    requires t.Node? && i <= |t.entries|
    ensures Keys(StripFrom(t, i)) == Without(Keys(t.entries[i..]), "data")
    ensures forall k :: k != "data" && Has(t.entries[i..], k) ==>
      Lookup(StripFrom(t, i), k) == Some(Strip(Get(t.entries[i..], k)))
    decreases |t.entries| - i
  {
    if i < |t.entries| {
      RemoveDataKeyKeeps(t, i + 1);
      assert t.entries[i..][1..] == t.entries[i + 1..];
    }
  }

  /** A mapping without 'data' keys comes back unchanged, so
      `remove_data_key` is idempotent. */
  lemma {:induction false} StripNoDataUnchanged<L>(t: Nested<L>)
    requires NoDataKey(t)
    ensures Strip(t) == t
    decreases t, 1, 0
  {
    if t.Node? {
      StripFromUnchanged(t, 0);
      assert t.entries[0..] == t.entries;
    }
  }

  lemma {:induction false} StripFromUnchanged<L>(t: Nested<L>, i: nat)
    requires t.Node? && i <= |t.entries| && NoDataKeyFrom(t, i)
    ensures StripFrom(t, i) == t.entries[i..]
    decreases t, 0, |t.entries| - i
  {
    if i < |t.entries| {
      StripFromUnchanged(t, i + 1);
      StripNoDataUnchanged(t.entries[i].1);
      assert t.entries[i..] == [t.entries[i]] + t.entries[i + 1..];
    }
  }

  lemma RemoveDataKeyIdempotent<L>(d: seq<(string, Nested<L>)>)
    ensures RemoveDataKey(RemoveDataKey(d)) == RemoveDataKey(d)
  {
    RemoveDataKeyNoData(d);
    StripFromUnchanged(Node(RemoveDataKey(d)), 0);
    assert RemoveDataKey(d)[0..] == RemoveDataKey(d);
  }

  // ---------------------------------------------------------------------
  // sort_inner_keys

  /** The natural-sort order is a parameter; the code relies only on its
      returning a permutation of the keys it is given. */
  predicate SortsKeysOf<V>(natsorted: seq<string> -> seq<string>, inner: Dict<string, V>)
  {
    multiset(natsorted(Keys(inner))) == multiset(Keys(inner))
  }

  /** The inner mapping rebuilt in the order `natsorted` gives its keys:
      the same keys and values, only the order changes. */
  function SortInner<V>(inner: Dict<string, V>, natsorted: seq<string> -> seq<string>): (r: Dict<string, V>)
    requires Valid(inner) && SortsKeysOf(natsorted, inner)
    ensures Keys(r) == natsorted(Keys(inner))
    ensures forall k :: Lookup(r, k) == Lookup(inner, k)
  {
    var keys := natsorted(Keys(inner));
    SortedKeysCover(inner, keys);
    var rebuilt := seq(|keys|, k requires 0 <= k < |keys| => (keys[k], Get(inner, keys[k])));
    RebuiltLookup(inner, keys, rebuilt);
    rebuilt
  }

  predicate SortableData<V>(data: Dict<string, Dict<string, V>>, natsorted: seq<string> -> seq<string>)
  {
    Valid(data) && forall j :: 0 <= j < |data| ==> Valid(data[j].1) && SortsKeysOf(natsorted, data[j].1)
  }

  /** What `sort_inner_keys` builds: each outer key with its inner mapping in
      natural-sort order. */
  function InnerSorted<V>(data: Dict<string, Dict<string, V>>, natsorted: seq<string> -> seq<string>)
    : (r: Dict<string, Dict<string, V>>)
    requires SortableData(data, natsorted)
    ensures |r| == |data|
  {
    seq(|data|, j requires 0 <= j < |data| => (data[j].0, SortInner(data[j].1, natsorted)))
  }

  /** The outer keys keep their order; each inner mapping keeps its key set and
      values and takes the natural-sort key order. */
  lemma InnerSortedKeeps<V>(data: Dict<string, Dict<string, V>>, natsorted: seq<string> -> seq<string>, j: nat, k: string)
    requires SortableData(data, natsorted) && j < |data|
    ensures Keys(InnerSorted(data, natsorted)) == Keys(data)
    ensures Keys(InnerSorted(data, natsorted)[j].1) == natsorted(Keys(data[j].1))
    ensures Lookup(InnerSorted(data, natsorted)[j].1, k) == Lookup(data[j].1, k)
  {
  }

  /** `sort_inner_keys(data)`: fills the new mapping one outer key at a time. */
  method SortInnerKeys<V>(data: Dict<string, Dict<string, V>>, natsorted: seq<string> -> seq<string>)
    returns (sorted: Dict<string, Dict<string, V>>)
    requires SortableData(data, natsorted)
    ensures sorted == InnerSorted(data, natsorted)
  {
    sorted := [];
    var n := 0;
    while n < |data|
      invariant n <= |data|
      invariant sorted == InnerSorted(data, natsorted)[..n]
    {
      var date := data[n].0;
      var inner := SortInner(data[n].1, natsorted);
      NotYetPut(data, sorted, n);
      PutAppends(sorted, date, inner);
      sorted := Put(sorted, date, inner);
      n := n + 1;
    }
  }

  lemma NotYetPut<V, W>(data: Dict<string, V>, sorted: Dict<string, W>, n: nat)
    requires Valid(data) && n < |data| && |sorted| == n
    requires forall j :: 0 <= j < n ==> sorted[j].0 == data[j].0
    ensures !Has(sorted, data[n].0)
  {
  }

  lemma {:induction false} PutAppends<K, V>(d: Dict<K, V>, k: K, v: V)
    requires !Has(d, k)
    ensures Put(d, k, v) == d + [(k, v)]
  {
    if d != [] {
      PutAppends(d[1..], k, v);
      assert d == [d[0]] + d[1..];
    }
  }

  /** A permutation of the distinct keys of a mapping names each of them once. */
  lemma SortedKeysCover<V>(inner: Dict<string, V>, keys: seq<string>)
    requires Valid(inner) && multiset(keys) == multiset(Keys(inner))
    ensures Distinct(keys) && forall k :: k in keys <==> Has(inner, k)
  {
    forall k ensures k in keys <==> Has(inner, k) {
      assert k in keys <==> k in multiset(keys);
      assert Has(inner, k) <==> k in multiset(Keys(inner));
    }
    forall i, j | 0 <= i < j < |keys| ensures keys[i] != keys[j] {
      if keys[i] == keys[j] {
        MultisetAtLeastTwo(keys, i, j);
        DistinctCountOne(Keys(inner), keys[i]);
      }
    }
  }

  lemma MultisetAtLeastTwo(s: seq<string>, i: nat, j: nat)
    requires i < j < |s| && s[i] == s[j]
    ensures multiset(s)[s[i]] >= 2
  {
    assert s == s[..i] + [s[i]] + s[i + 1..j] + [s[j]] + s[j + 1..];
    assert multiset(s) == multiset(s[..i]) + multiset{s[i]} + multiset(s[i + 1..j]) + multiset{s[j]} + multiset(s[j + 1..]);
  }

  lemma {:induction false} DistinctCountOne(s: seq<string>, x: string)
    requires Distinct(s)
    ensures multiset(s)[x] <= 1
  {
    if s != [] {
      assert Distinct(s[1..]) by {
        forall i, j | 0 <= i < j < |s| - 1 ensures s[1..][i] != s[1..][j] {
          assert s[1..][i] == s[i + 1] && s[1..][j] == s[j + 1];
        }
      }
      DistinctCountOne(s[1..], x);
      assert s == [s[0]] + s[1..];
      assert s[0] !in s[1..];
    }
  }

  lemma {:induction false} RebuiltLookup<V>(inner: Dict<string, V>, keys: seq<string>, rebuilt: Dict<string, V>)
    requires Distinct(keys) && forall k :: k in keys <==> Has(inner, k)
    requires |rebuilt| == |keys| && forall k :: 0 <= k < |keys| ==> rebuilt[k] == (keys[k], Get(inner, keys[k]))
    ensures Keys(rebuilt) == keys
    ensures forall k :: Lookup(rebuilt, k) == Lookup(inner, k)
  {
    forall k ensures Lookup(rebuilt, k) == Lookup(inner, k) {
      if Has(inner, k) {
        var p :| 0 <= p < |keys| && keys[p] == k;
        LookupAt(rebuilt, p);
      }
    }
  }

  /** The value at the first position of a key is what `Lookup` finds. */
  lemma {:induction false} LookupAt<K, V>(d: Dict<K, V>, p: nat)
    requires p < |d| && forall j :: 0 <= j < p ==> d[j].0 != d[p].0
    ensures Lookup(d, d[p].0) == Some(d[p].1)
  {
    if p > 0 {
      LookupAt(d[1..], p - 1);
    }
  }
}
