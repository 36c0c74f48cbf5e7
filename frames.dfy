/** IV sweep tables: a pandas DataFrame with columns 'V' and 'I', one sample per
    row, in row order (the default 0-based index). */
module Frames {
  datatype Sample = Sample(v: real, i: real)

  type Frame = seq<Sample>

  function Abs(x: real): real { if x < 0.0 then -x else x }

  function Voltages(f: Frame): (vs: seq<real>)
    ensures |vs| == |f| && forall k :: 0 <= k < |f| ==> vs[k] == f[k].v
  {
    seq(|f|, k requires 0 <= k < |f| => f[k].v)
  }

  function Currents(f: Frame): (cs: seq<real>)
    ensures |cs| == |f| && forall k :: 0 <= k < |f| ==> cs[k] == f[k].i
  {
    seq(|f|, k requires 0 <= k < |f| => f[k].i)
  }

  function AbsAll(s: seq<real>): (r: seq<real>)
    ensures |r| == |s| && forall k :: 0 <= k < |s| ==> r[k] == Abs(s[k])
  {
    seq(|s|, k requires 0 <= k < |s| => Abs(s[k]))
  }

  /** `np.argmin` / `Series.idxmin`: the FIRST position of the smallest value. */
  function ArgMin(s: seq<real>): (k: nat)
    requires |s| > 0
    ensures k < |s|
    ensures forall j :: 0 <= j < |s| ==> s[k] <= s[j]
    ensures forall j :: 0 <= j < k ==> s[j] > s[k]
  {
    if |s| == 1 then 0
    else
      var k := ArgMin(s[..|s| - 1]);
      if s[|s| - 1] < s[k] then |s| - 1 else k
  }

  /** `np.argmax`: the FIRST position of the largest value. */
  function ArgMax(s: seq<real>): (k: nat)
    requires |s| > 0
    ensures k < |s|
    ensures forall j :: 0 <= j < |s| ==> s[j] <= s[k]
    ensures forall j :: 0 <= j < k ==> s[j] < s[k]
  {
    if |s| == 1 then 0
    else
      var k := ArgMax(s[..|s| - 1]);
      if s[|s| - 1] > s[k] then |s| - 1 else k
  }

  /** The first position of the least value is determined by the two
      properties that `ArgMin` promises. */
  lemma ArgMinUnique(s: seq<real>, k: nat)
    requires k < |s|
    requires forall j :: 0 <= j < |s| ==> s[k] <= s[j]
    requires forall j :: 0 <= j < k ==> s[j] > s[k]
    ensures ArgMin(s) == k
  {
  }
}
