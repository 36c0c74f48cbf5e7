/** Python dictionaries as association lists: the entries keep insertion
    order, which the pipeline relies on for "first best match" and for the
    order of folders, devices and sweeps. */
module Dicts {
  import opened Wrappers

  type Dict<K(==), V> = seq<(K, V)>

  function Keys<K(==), V>(d: Dict<K, V>): (ks: seq<K>)
    ensures |ks| == |d|
    ensures forall i :: 0 <= i < |d| ==> ks[i] == d[i].0
  {
    if d == [] then [] else [d[0].0] + Keys(d[1..])
  }

  predicate Distinct<T(==)>(s: seq<T>)
  {
    forall i, j :: 0 <= i < j < |s| ==> s[i] != s[j]
  }

  /** Every key occurs once, as in a Python dict. */
  predicate Valid<K(==), V>(d: Dict<K, V>)
  {
    Distinct(Keys(d))
  }

  predicate Has<K(==), V>(d: Dict<K, V>, k: K)
  {
    k in Keys(d)
  }

  /** `d[k]`: the value stored under `k`. */
  function Get<K(==), V>(d: Dict<K, V>, k: K): V
    requires Has(d, k)
  {
    if d[0].0 == k then d[0].1 else Get(d[1..], k)
  }

  /** `d.get(k)`. */
  function Lookup<K(==), V>(d: Dict<K, V>, k: K): (r: Option<V>)
    ensures r.Some? <==> Has(d, k)
    ensures r.Some? ==> r.value == Get(d, k)
  {
    if d == [] then None
    else if d[0].0 == k then Some(d[0].1)
    else Lookup(d[1..], k)
  }

  /** `d[k] = v`: an existing key keeps its position, a new one goes last. */
  function Put<K(==), V>(d: Dict<K, V>, k: K, v: V): Dict<K, V>
  {
    if d == [] then [(k, v)]
    else if d[0].0 == k then [(k, v)] + d[1..]
    else [d[0]] + Put(d[1..], k, v)
  }

  /** `list(d.values())`. */
  function Values<K(==), V>(d: Dict<K, V>): (vs: seq<V>)
    ensures |vs| == |d| && forall k :: 0 <= k < |d| ==> vs[k] == d[k].1
  {
    seq(|d|, k requires 0 <= k < |d| => d[k].1)
  }

  /** `d.pop(k, None)` / `del d[k]`. */
  function Remove<K(==), V>(d: Dict<K, V>, k: K): Dict<K, V>
  {
    if d == [] then []
    else if d[0].0 == k then Remove(d[1..], k)
    else [d[0]] + Remove(d[1..], k)
  }

  /** The keys in order with `k` left out. */
  function Without<K(==)>(ks: seq<K>, k: K): seq<K>
  {
    if ks == [] then [] else if ks[0] == k then Without(ks[1..], k) else [ks[0]] + Without(ks[1..], k)
  }

  lemma {:induction false} PutLookup<K, V>(d: Dict<K, V>, k: K, v: V, k': K)
    ensures Lookup(Put(d, k, v), k') == if k' == k then Some(v) else Lookup(d, k')
  {
    if d != [] && d[0].0 != k {
      PutLookup(d[1..], k, v, k');
    }
  }

  lemma {:induction false} PutKeys<K, V>(d: Dict<K, V>, k: K, v: V)
    ensures Keys(Put(d, k, v)) == if Has(d, k) then Keys(d) else Keys(d) + [k]
  {
    if d != [] && d[0].0 != k {
      PutKeys(d[1..], k, v);
    }
  }

  lemma PutValid<K, V>(d: Dict<K, V>, k: K, v: V)
    requires Valid(d)
    ensures Valid(Put(d, k, v))
  {
    PutKeys(d, k, v);
  }

  lemma {:induction false} RemoveLookup<K, V>(d: Dict<K, V>, k: K, k': K)
    ensures Lookup(Remove(d, k), k') == if k' == k then None else Lookup(d, k')
  {
    if d != [] {
      RemoveLookup(d[1..], k, k');
    }
  }

  lemma {:induction false} RemoveKeys<K, V>(d: Dict<K, V>, k: K)
    ensures Keys(Remove(d, k)) == Without(Keys(d), k)
  {
    if d != [] {
      RemoveKeys(d[1..], k);
      assert Keys(d)[1..] == Keys(d[1..]);
    }
  }

  lemma {:induction false} WithoutDistinct<K>(ks: seq<K>, k: K)
    requires Distinct(ks)
    ensures Distinct(Without(ks, k)) && k !in Without(ks, k)
    ensures forall x :: x in Without(ks, k) <==> x in ks && x != k
  {
    if ks != [] {
      assert Distinct(ks[1..]) by {
        forall i, j | 0 <= i < j < |ks| - 1 ensures ks[1..][i] != ks[1..][j] {
          assert ks[1..][i] == ks[i + 1] && ks[1..][j] == ks[j + 1];
        }
      }
      WithoutDistinct(ks[1..], k);
      assert ks[0] !in ks[1..];
    }
  }

  lemma RemoveValid<K, V>(d: Dict<K, V>, k: K)
    requires Valid(d)
    ensures Valid(Remove(d, k)) && !Has(Remove(d, k), k)
  {
    RemoveKeys(d, k);
    WithoutDistinct(Keys(d), k);
  }

  lemma ValidTail<K, V>(d: Dict<K, V>)
    requires Valid(d) && d != []
    ensures Valid(d[1..]) && !Has(d[1..], d[0].0)
  {
    assert forall i, j :: 0 <= i < j < |d| - 1 ==> Keys(d[1..])[i] == Keys(d)[i + 1] && Keys(d[1..])[j] == Keys(d)[j + 1];
    assert forall i :: 0 <= i < |d| - 1 ==> Keys(d[1..])[i] == Keys(d)[i + 1];
  }

  /** Storing under an existing key replaces that entry only. */
  lemma {:induction false} PutReplaces<K, V>(d: Dict<K, V>, k: K, v: V)
    requires Valid(d) && Has(d, k)
    ensures |Put(d, k, v)| == |d|
    ensures forall j :: 0 <= j < |d| ==> Put(d, k, v)[j] == if d[j].0 == k then (k, v) else d[j]
  {
    ValidTail(d);
    if d[0].0 != k {
      PutReplaces(d[1..], k, v);
    } else {
      assert forall j :: 0 < j < |d| ==> d[j].0 == Keys(d[1..])[j - 1];
    }
  }

  /** Storing under a new key appends the entry. */
  lemma {:induction false} PutNew<K, V>(d: Dict<K, V>, k: K, v: V)
    requires !Has(d, k)
    ensures Put(d, k, v) == d + [(k, v)]
  {
    if d != [] {
      assert Keys(d) == [d[0].0] + Keys(d[1..]);
      PutNew(d[1..], k, v);
      assert d == [d[0]] + d[1..];
    }
  }

  lemma {:induction false} KeysConcat<K, V>(a: Dict<K, V>, b: Dict<K, V>)
    ensures Keys(a + b) == Keys(a) + Keys(b)
  {
    var l, r := Keys(a + b), Keys(a) + Keys(b);
    assert |l| == |r|;
    forall i | 0 <= i < |l|
      ensures l[i] == r[i]
    {
      if i < |a| {
        assert (a + b)[i] == a[i];
      } else {
        assert (a + b)[i] == b[i - |a|];
      }
    }
  }

  /** Every entry after a store is an old entry or the stored one. */
  lemma {:induction false} PutEntries<K, V>(d: Dict<K, V>, k: K, v: V)
    ensures forall e :: e in Put(d, k, v) ==> e in d || e == (k, v)
  {
    if d != [] && d[0].0 != k {
      PutEntries(d[1..], k, v);
    }
  }

  /** Removal keeps only old entries. */
  lemma {:induction false} RemoveEntries<K, V>(d: Dict<K, V>, k: K)
    ensures forall e :: e in Remove(d, k) ==> e in d
  {
    if d != [] {
      RemoveEntries(d[1..], k);
    }
  }

  /** Looking up in a dictionary extended by one entry at the end. */
  lemma {:induction false} LookupSnoc<K, V>(d: Dict<K, V>, k: K, v: V, k': K)
    ensures Lookup(d + [(k, v)], k') == if Has(d, k') then Lookup(d, k') else if k' == k then Some(v) else None
  {
    if d != [] {
      assert (d + [(k, v)])[1..] == d[1..] + [(k, v)];
      LookupSnoc(d[1..], k, v, k');
    }
  }

  /** The first part of a concatenation is its prefix. */
  lemma ConcatPrefix<T>(a: seq<T>, b: seq<T>)
    ensures (a + b)[..|a|] == a
  {
  }

  /** The prefix of full length is the whole sequence. */
  lemma PrefixAll<T>(s: seq<T>)
    ensures s[..|s|] == s
  {
  }

  /** A prefix one element longer ends in that element. */
  lemma PrefixSnoc<T>(s: seq<T>, n: nat)
    requires 0 < n <= |s|
    ensures s[..n] == s[..n - 1] + [s[n - 1]]
  {
  }

  /** In a dict with distinct keys, a prefix one entry longer adds just
      that entry. */
  lemma LookupPrefix<K, V>(d: Dict<K, V>, n: nat, k: K)
    requires Valid(d) && 0 < n <= |d|
    ensures Lookup(d[..n], k) == if k == d[n - 1].0 then Some(d[n - 1].1) else Lookup(d[..n - 1], k)
  {
    PrefixSnoc(d, n);
    LookupSnoc(d[..n - 1], d[n - 1].0, d[n - 1].1, k);
    LastKeyFresh(d, n);
  }

  /** In a dict with distinct keys, no entry before the `n`-th has its key. */
  lemma LastKeyFresh<K, V>(d: Dict<K, V>, n: nat)
    requires Valid(d) && 0 < n <= |d|
    ensures !Has(d[..n - 1], d[n - 1].0)
  {
    var ks := Keys(d[..n - 1]);
    forall i | 0 <= i < n - 1 ensures ks[i] != d[n - 1].0 {
      assert ks[i] == Keys(d)[i];
    }
  }

  /** The value stored under a key is one of the entries. */
  lemma {:induction false} LookupIn<K, V>(d: Dict<K, V>, k: K)
    requires Has(d, k)
    ensures (k, Get(d, k)) in d
  {
    if d[0].0 != k {
      LookupIn(d[1..], k);
    }
  }

  /** In a dict with distinct keys, each entry is what its key looks up. */
  lemma {:induction false} LookupAt<K, V>(d: Dict<K, V>, n: nat)
    requires Valid(d) && n < |d|
    ensures Lookup(d, d[n].0) == Some(d[n].1)
  {
    if n > 0 {
      ValidTail(d);
      assert Keys(d)[0] != Keys(d)[n];
      LookupAt(d[1..], n - 1);
    }
  }

  /** Storing twice under one key keeps the second value in the first's place. */
  lemma {:induction false} PutPut<K, V>(d: Dict<K, V>, k: K, v: V, w: V)
    ensures Put(Put(d, k, v), k, w) == Put(d, k, w)
  {
    if d != [] && d[0].0 != k {
      PutPut(d[1..], k, v, w);
    }
  }

  /** `dict(entries)`: the entries put in order, so a later entry replaces
      the value of an earlier one with the same key. */
  function PutAll<K, V>(entries: seq<(K, V)>): (d: Dict<K, V>)
    ensures Valid(d)
  {
    if entries == [] then []
    else
      var prev := PutAll(entries[..|entries| - 1]);
      PutValid(prev, entries[|entries| - 1].0, entries[|entries| - 1].1);
      Put(prev, entries[|entries| - 1].0, entries[|entries| - 1].1)
  }

  /** A key of `dict(entries)` is a key of some entry, and the last entry
      with that key gives its value. */
  lemma {:induction false} PutAllLastWins<K, V>(entries: seq<(K, V)>, key: K)
    ensures Lookup(PutAll(entries), key).Some? <==> exists j :: 0 <= j < |entries| && entries[j].0 == key
    ensures Lookup(PutAll(entries), key).Some? ==> exists j :: (0 <= j < |entries| && entries[j].0 == key
      && Lookup(PutAll(entries), key) == Some(entries[j].1)
      && forall j' :: j < j' < |entries| ==> entries[j'].0 != key)
  {
    if entries != [] {
      var init := entries[..|entries| - 1];
      var last := entries[|entries| - 1];
      PutAllLastWins(init, key);
      PutLookup(PutAll(init), last.0, last.1, key);
      assert forall j :: 0 <= j < |init| ==> init[j] == entries[j];
      if last.0 != key && Lookup(PutAll(init), key).Some? {
        var j :| 0 <= j < |init| && init[j].0 == key && Lookup(PutAll(init), key) == Some(init[j].1)
          && forall j' :: j < j' < |init| ==> init[j'].0 != key;
        assert forall j' :: j < j' < |entries| ==> entries[j'].0 != key;
      }
    }
  }
}
