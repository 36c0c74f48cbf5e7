/** The name-key pairing prototype `find_pairs` (test2.py): forward and
    reverse sweep files wait in two dictionaries keyed by the file name with
    its direction tag and "-slow" removed, and a file pairs with a waiting
    file of the other direction under the same key. What it prints is
    modelled as a sequence of output lines. */
module FindPairs {
  import opened Wrappers
  import opened Strs
  import opened Dicts

  /** The lines the prototype prints. */
  datatype Line =
    | PairFound(forward: string, reverse: string)
    | UnpairedHeader
    | Unpaired(file: string)
    | AllPaired

  /** "Fw" is checked first, so a name with both tags is forward. */
  predicate IsForward(file: string)
  {
    Contains(file, "Fw")
  }

  predicate IsReverse(file: string)
  {
    !Contains(file, "Fw") && Contains(file, "Rv")
  }

  /** `file.replace("-" + tag, "").replace(tag, "").replace("-slow", "")`. */
  function Key(file: string, tag: string): string
    requires |tag| > 0
  {
    RemoveAll(RemoveAll(RemoveAll(file, "-" + tag), tag), "-slow")
  }

  /** The two waiting dictionaries and the lines printed so far. */
  datatype Pool = Pool(forward: Dict<string, string>, reverse: Dict<string, string>, printed: seq<Line>)

  /** One pass of the loop body over `file`. */
  function Step(p: Pool, file: string): Pool
  {
    if IsForward(file) then
      var key := Key(file, "Fw");
      match Lookup(p.reverse, key)
      case Some(rv) => Pool(p.forward, Remove(p.reverse, key), p.printed + [PairFound(file, rv)])
      case None => Pool(Put(p.forward, key, file), p.reverse, p.printed)
    else if Contains(file, "Rv") then
      var key := Key(file, "Rv");
      match Lookup(p.forward, key)
      case Some(fw) => Pool(Remove(p.forward, key), p.reverse, p.printed + [PairFound(fw, file)])
      case None => Pool(p.forward, Put(p.reverse, key, file), p.printed)
    else p
  }

  /** The state after the first `n` files. */
  function Scan(files: seq<string>, n: nat): Pool
    requires n <= |files|
  {
    if n == 0 then Pool([], [], []) else Step(Scan(files, n - 1), files[n - 1])
  }

  /** The files still waiting: the forward ones, then the reverse ones. */
  function Waiting(p: Pool): seq<string>
  {
    Values(p.forward) + Values(p.reverse)
  }

  function UnpairedLines(files: seq<string>): (r: seq<Line>)
    ensures |r| == |files| && forall j :: 0 <= j < |files| ==> r[j] == Unpaired(files[j])
  {
    seq(|files|, j requires 0 <= j < |files| => Unpaired(files[j]))
  }

  /** Everything the prototype prints for `files`. */
  function Output(files: seq<string>): seq<Line>
  {
    Report(Scan(files, |files|))
  }

  /** The scan's lines, then the verdict on the files still waiting. */
  function Report(p: Pool): seq<Line>
  {
    var rest := Waiting(p);
    p.printed + if rest == [] then [AllPaired] else [UnpairedHeader] + UnpairedLines(rest)
  }

  /** The loop of `find_pairs` over the two dictionaries, then the report. */
  method FindPairs(files: seq<string>) returns (out: seq<Line>)
    ensures out == Output(files)
  {
    var forward: Dict<string, string> := [];
    var reverse: Dict<string, string> := [];
    out := [];
    for i := 0 to |files|
      invariant Pool(forward, reverse, out) == Scan(files, i)
    {
      var file := files[i];
      if IsForward(file) {
        var key := Key(file, "Fw");
        var waiting := Lookup(reverse, key);
        if waiting.Some? {
          out := out + [PairFound(file, waiting.value)];
          reverse := Remove(reverse, key);
        } else {
          forward := Put(forward, key, file);
        }
      } else if Contains(file, "Rv") {
        var key := Key(file, "Rv");
        var waiting := Lookup(forward, key);
        if waiting.Some? {
          out := out + [PairFound(waiting.value, file)];
          forward := Remove(forward, key);
        } else {
          reverse := Put(reverse, key, file);
        }
      }
    }
    ghost var scanned := Pool(forward, reverse, out);
    var unpaired := Values(forward) + Values(reverse);
    assert unpaired == Waiting(scanned);
    if unpaired == [] {
      out := out + [AllPaired];
    } else {
      out := out + [UnpairedHeader];
      ghost var printed := out;
      for j := 0 to |unpaired|
        invariant out == printed + UnpairedLines(unpaired[..j])
      {
        assert UnpairedLines(unpaired[..j + 1]) == UnpairedLines(unpaired[..j]) + [Unpaired(unpaired[j])];
        out := out + [Unpaired(unpaired[j])];
      }
      PrefixAll(unpaired);
    }
    assert out == Report(scanned);
  }

  /** Every waiting forward file sits under its own forward key. */
  predicate ForwardEntries(d: Dict<string, string>)
  {
    forall e :: e in d ==> IsForward(e.1) && e.0 == Key(e.1, "Fw")
  }

  /** Every waiting reverse file sits under its own reverse key. */
  predicate ReverseEntries(d: Dict<string, string>)
  {
    forall e :: e in d ==> IsReverse(e.1) && e.0 == Key(e.1, "Rv")
  }

  /** No key waits in both directions. */
  predicate Apart(a: Dict<string, string>, b: Dict<string, string>)
  {
    forall k :: k in Keys(a) ==> k !in Keys(b)
  }

  predicate GoodPair(l: Line)
  {
    l.PairFound? && IsForward(l.forward) && IsReverse(l.reverse) && Key(l.forward, "Fw") == Key(l.reverse, "Rv")
  }

  /** What the pool keeps: each waiting file sits under its own key, no key
      waits in both directions, and each printed pair joins a forward and a
      reverse file with the same key. */
  predicate Sound(p: Pool)
  {
    Valid(p.forward) && Valid(p.reverse) && ForwardEntries(p.forward) && ReverseEntries(p.reverse)
    && Apart(p.forward, p.reverse) && forall l :: l in p.printed ==> GoodPair(l)
  }

  lemma StepSound(p: Pool, file: string)
    requires Sound(p)
    ensures Sound(Step(p, file))
  {
    if IsForward(file) {
      ForwardStepSound(p, file);
    } else if Contains(file, "Rv") {
      ReverseStepSound(p, file);
    }
  }

  lemma ForwardStepSound(p: Pool, file: string)
    requires Sound(p) && IsForward(file)
    ensures Sound(Step(p, file))
  {
    var key := Key(file, "Fw");
    if Has(p.reverse, key) {
      TakeSound(p.reverse, key);
      assert ReverseEntries(Remove(p.reverse, key));
      var rv := Get(p.reverse, key);
      assert GoodPair(PairFound(file, rv));
      assert Apart(p.forward, Remove(p.reverse, key));
    } else {
      StoreSound(p.forward, key, file);
      assert ForwardEntries(Put(p.forward, key, file));
      assert Apart(Put(p.forward, key, file), p.reverse);
    }
  }

  lemma ReverseStepSound(p: Pool, file: string)
    requires Sound(p) && !IsForward(file) && Contains(file, "Rv")
    ensures Sound(Step(p, file))
  {
    var key := Key(file, "Rv");
    if Has(p.forward, key) {
      TakeSound(p.forward, key);
      assert ForwardEntries(Remove(p.forward, key));
      var fw := Get(p.forward, key);
      assert GoodPair(PairFound(fw, file));
      assert Apart(Remove(p.forward, key), p.reverse);
    } else {
      StoreSound(p.reverse, key, file);
      assert ReverseEntries(Put(p.reverse, key, file));
      assert Apart(p.forward, Put(p.reverse, key, file));
    }
  }

  /** Taking a waiting file out keeps the keys distinct and leaves only old
      entries and old keys. */
  lemma TakeSound(waiting: Dict<string, string>, key: string)
    requires Valid(waiting) && Has(waiting, key)
    ensures (key, Get(waiting, key)) in waiting
    ensures Valid(Remove(waiting, key)) && forall e :: e in Remove(waiting, key) ==> e in waiting
    ensures forall k :: k in Keys(Remove(waiting, key)) ==> k in Keys(waiting)
  {
    LookupIn(waiting, key);
    RemoveValid(waiting, key);
    RemoveEntries(waiting, key);
    RemoveKeys(waiting, key);
    WithoutDistinct(Keys(waiting), key);
  }

  /** Storing a file keeps the keys distinct and adds only that entry and
      that key. */
  lemma StoreSound(waiting: Dict<string, string>, key: string, file: string)
    requires Valid(waiting)
    ensures Valid(Put(waiting, key, file))
    ensures forall e :: e in Put(waiting, key, file) ==> e in waiting || e == (key, file)
    ensures forall k :: k in Keys(Put(waiting, key, file)) ==> k in Keys(waiting) || k == key
  {
    PutValid(waiting, key, file);
    PutEntries(waiting, key, file);
    PutKeys(waiting, key, file);
  }

  lemma {:induction false} ScanSound(files: seq<string>, n: nat)
    requires n <= |files|
    ensures Sound(Scan(files, n))
  {
    if n > 0 {
      ScanSound(files, n - 1);
      StepSound(Scan(files, n - 1), files[n - 1]);
    }
  }

  /** Every line printed names files of the right kind: a pair joins a
      forward and a reverse file of the same key, and an unpaired file has a
      direction tag. A name with neither tag is never printed. */
  lemma OutputNamesTaggedFiles(files: seq<string>)
    ensures forall l :: l in Output(files) && l.PairFound? ==>
      IsForward(l.forward) && IsReverse(l.reverse) && Key(l.forward, "Fw") == Key(l.reverse, "Rv")
    ensures forall l :: l in Output(files) && l.Unpaired? ==> IsForward(l.file) || IsReverse(l.file)
  {
    var p := Scan(files, |files|);
    ScanSound(files, |files|);
    var rest := Waiting(p);
    forall j | 0 <= j < |rest| ensures IsForward(rest[j]) || IsReverse(rest[j]) {
      if j < |p.forward| {
        assert p.forward[j] in p.forward;
      } else {
        assert p.reverse[j - |p.forward|] in p.reverse;
      }
    }
  }

  /** "All files are paired." is printed exactly when no file waits, and the
      unpaired files are then listed after a header, forward ones first. */
  lemma AllPairedExactly(files: seq<string>)
    ensures AllPaired in Output(files) <==> Waiting(Scan(files, |files|)) == []
    ensures Waiting(Scan(files, |files|)) != [] ==>
      Output(files) == Scan(files, |files|).printed + [UnpairedHeader] + UnpairedLines(Waiting(Scan(files, |files|)))
  {
    PrintsOnlyPairs(files);
    ReportVerdict(Scan(files, |files|));
  }

  /** The verdict follows the scan when the scan printed only pairs. */
  lemma ReportVerdict(p: Pool)
    requires AllPaired !in p.printed
    ensures AllPaired in Report(p) <==> Waiting(p) == []
    ensures Waiting(p) != [] ==> Report(p) == p.printed + [UnpairedHeader] + UnpairedLines(Waiting(p))
  {
    var rest := Waiting(p);
    if rest != [] {
      var u := UnpairedLines(rest);
      assert AllPaired !in u;
      assert Report(p) == p.printed + ([UnpairedHeader] + u);
    }
  }

  /** The scan itself prints only pairs. */
  lemma PrintsOnlyPairs(files: seq<string>)
    ensures AllPaired !in Scan(files, |files|).printed
  {
    ScanSound(files, |files|);
    assert forall l :: l in Scan(files, |files|).printed ==> GoodPair(l);
  }

  /** A forward file meeting a waiting reverse file of the same key prints
      the pair and takes the reverse file out of the pool. */
  lemma ForwardMeetsWaitingReverse(p: Pool, file: string, rv: string)
    requires Sound(p) && IsForward(file) && Lookup(p.reverse, Key(file, "Fw")) == Some(rv)
    ensures Step(p, file).printed == p.printed + [PairFound(file, rv)]
    ensures Step(p, file).forward == p.forward
    ensures !Has(Step(p, file).reverse, Key(file, "Fw"))
  {
    RemoveValid(p.reverse, Key(file, "Fw"));
  }

  /** A second forward file with the same key replaces the first, which is
      then neither paired nor reported. */
  lemma LaterForwardReplaces(p: Pool, file: string, earlier: string)
    requires Sound(p) && IsForward(file) && Lookup(p.forward, Key(file, "Fw")) == Some(earlier)
    ensures Lookup(Step(p, file).forward, Key(file, "Fw")) == Some(file)
    ensures Step(p, file).printed == p.printed
    ensures earlier != file ==> earlier !in Values(Step(p, file).forward)
  {
    var key := Key(file, "Fw");
    assert !Has(p.reverse, key);
    PutLookup(p.forward, key, file, key);
    if earlier != file {
      LookupIn(p.forward, key);
      assert Key(earlier, "Fw") == key;
      PutReplaces(p.forward, key, file);
      var q := Put(p.forward, key, file);
      forall j | 0 <= j < |q| ensures q[j].1 != earlier {
        if p.forward[j].0 != key {
          assert p.forward[j] in p.forward;
        }
      }
    }
  }

  /** In a dict with distinct keys, the entry at position `j` is what its
      key looks up. */
  lemma {:induction false} LookupAtValid<K, V>(d: Dict<K, V>, j: nat)
    requires Valid(d) && j < |d|
    ensures Lookup(d, d[j].0) == Some(d[j].1)
  {
    if j > 0 {
      ValidTail(d);
      assert d[1..][j - 1] == d[j];
      assert d[0].0 != d[j].0 by { assert Keys(d)[0] != Keys(d)[j]; }
      LookupAtValid(d[1..], j - 1);
    }
  }

  /** A file with neither "Fw" nor "Rv" in its name leaves the pool as it
      was. */
  lemma UntaggedIgnored(p: Pool, file: string)
    requires !Contains(file, "Fw") && !Contains(file, "Rv")
    ensures Step(p, file) == p
  {
  }
}
