/** Grouping pixels (devices) into substrates: the automatic grouping by
    name, and the list logic of the sorting window (reading the substrate
    frames, choosing a column, handing the grouped list back). */
module PixelSorter {
  import opened Wrappers
  import opened Dicts
  import opened Strs

  // ---------------------------------------------------------------------
  // Substrate names.

  /** `C\d+` matching the whole of `r`. */
  predicate ContactTail(r: string)
  {
    |r| >= 2 && r[0] == 'C' && forall i :: 1 <= i < |r| ==> IsAsciiDigit(r[i])
  }

  /** `r` after its first character is non-digits followed by exactly `n` digits. */
  predicate DigitsAfter(r: string, n: nat)
  {
    n < |r| &&
    (forall i :: |r| - n <= i < |r| ==> IsAsciiDigit(r[i])) &&
    (forall i :: 1 <= i < |r| - n ==> !IsAsciiDigit(r[i]))
  }

  /** `-\D*\d{1,2}` matching the whole of `r`. */
  predicate DashTail(r: string)
  {
    |r| >= 2 && r[0] == '-' && (DigitsAfter(r, 1) || DigitsAfter(r, 2))
  }

  /** `re.search(r"C\d+$", name)` succeeds. */
  predicate EndsWithContact(name: string)
  {
    exists k :: 0 <= k < |name| && ContactTail(name[k..])
  }

  predicate AllEndWithContact(names: seq<string>)
  {
    forall i :: 0 <= i < |names| ==> EndsWithContact(names[i])
  }

  /** The end of a lazy group `(.*?)` starting its search at `k`: the first
      position from which the rest of the name is empty or matches `tail`. */
  function LazyEnd(name: string, k: nat, tail: string -> bool): (j: nat)
    requires k <= |name|
    ensures k <= j <= |name|
    ensures j == |name| || tail(name[j..])
    ensures forall i :: k <= i < j ==> !tail(name[i..])
    decreases |name| - k
  {
    if k == |name| || tail(name[k..]) then k else LazyEnd(name, k + 1, tail)
  }

  /** Drops one trailing underscore. */
  function DropUnderscore(g: string): (r: string)
    ensures EndsWith(g, "_") ==> r + "_" == g
    ensures !EndsWith(g, "_") ==> r == g
  {
    if EndsWith(g, "_") then g[..|g| - 1] else g
  }

  /** `determine_substrate_name`: group 1 of `^(.+?)(C\d+)?$` when every
      pixel name ends in a contact number, else of `^(.*?)(-\D*\d{1,2})?$`,
      less one trailing underscore; a name the pattern does not match (only
      the empty name, in contact mode) is returned as it is. */
  function Substrate(contacts: bool, name: string): string
  {
    if contacts then
      if name == [] then name else DropUnderscore(name[..LazyEnd(name, 1, ContactTail)])
    else DropUnderscore(name[..LazyEnd(name, 0, DashTail)])
  }

  /** In contact mode the substrate is the name without its final 'C' and
      digit run, as long as at least one character is left. */
  lemma ContactSubstrate(name: string, p: nat)
    requires 1 <= p < |name| && ContactTail(name[p..])
    ensures Substrate(true, name) == DropUnderscore(name[..p])
  {
    var j := LazyEnd(name, 1, ContactTail);
    assert j <= p;
  }

  /** A contact-mode name without such a run (or with nothing in front of
      it) is its own substrate, less a trailing underscore. */
  lemma ContactSubstrateWhole(name: string)
    requires name != [] && forall p :: 1 <= p < |name| ==> !ContactTail(name[p..])
    ensures Substrate(true, name) == DropUnderscore(name)
  {
    assert name[..|name|] == name;
  }

  /** In dash mode the substrate is the shortest prefix whose remainder is a
      dash, non-digits and one or two final digits. */
  lemma DashSubstrate(name: string, p: nat)
    requires p < |name| && DashTail(name[p..])
    requires forall i :: 0 <= i < p ==> !DashTail(name[i..])
    ensures Substrate(false, name) == DropUnderscore(name[..p])
  {
    var j := LazyEnd(name, 0, DashTail);
    assert j <= p;
  }

  /** The substrates in order of first appearance, each with its pixels in
      input order. */
  function Grouped(contacts: bool, pixels: seq<string>): (g: Dict<string, seq<string>>)
    ensures Valid(g)
  {
    if pixels == [] then []
    else
      var prev := Grouped(contacts, pixels[..|pixels| - 1]);
      var p := pixels[|pixels| - 1];
      var s := Substrate(contacts, p);
      var members := if Has(prev, s) then Get(prev, s) else [];
      PutValid(prev, s, members + [p]);
      Put(prev, s, members + [p])
  }

  /** The pixels whose substrate is `s`, in input order. */
  function Members(contacts: bool, pixels: seq<string>, s: string): (m: seq<string>)
    ensures forall p :: p in m <==> p in pixels && Substrate(contacts, p) == s
  {
    if pixels == [] then []
    else
      var p := pixels[|pixels| - 1];
      var prev := Members(contacts, pixels[..|pixels| - 1], s);
      assert pixels == pixels[..|pixels| - 1] + [p];
      if Substrate(contacts, p) == s then prev + [p] else prev
  }

  /** Every pixel is in exactly one group, the one its substrate names, and
      the groups keep input order: a substrate's group is exactly its
      members, and only substrates with members have a group. */
  lemma {:induction false} GroupedMembers(contacts: bool, pixels: seq<string>, s: string)
    ensures Lookup(Grouped(contacts, pixels), s) ==
      if Members(contacts, pixels, s) == [] then None else Some(Members(contacts, pixels, s))
  {
    if pixels != [] {
      var init := pixels[..|pixels| - 1];
      var p := pixels[|pixels| - 1];
      var prev := Grouped(contacts, init);
      GroupedMembers(contacts, init, s);
      GroupedMembers(contacts, init, Substrate(contacts, p));
      var members := if Has(prev, Substrate(contacts, p)) then Get(prev, Substrate(contacts, p)) else [];
      PutLookup(prev, Substrate(contacts, p), members + [p], s);
    }
  }

  class PixelGroupingManager {
    var pixelList: seq<string>

    /** Keeps the pixels in natural sort order (`natsorted` is the foreign sort). */
    constructor (pixels: seq<string>, natsorted: seq<string> -> seq<string>)
      ensures pixelList == natsorted(pixels)
    {
      pixelList := natsorted(pixels);
    }

    /** `group_pixels_by_substrate`: appends every pixel to its substrate's group. */
    method GroupPixelsBySubstrate() returns (grouped: Dict<string, seq<string>>)
      ensures grouped == Grouped(AllEndWithContact(pixelList), pixelList)
    {
      var contacts := AllEndWithContact(pixelList);
      grouped := [];
      for k := 0 to |pixelList|
        invariant grouped == Grouped(contacts, pixelList[..k])
      {
        PrefixSnoc(pixelList, k + 1);
        var substrate := Substrate(contacts, pixelList[k]);
        var members := if Has(grouped, substrate) then Get(grouped, substrate) else [];
        grouped := Put(grouped, substrate, members + [pixelList[k]]);
      }
      PrefixAll(pixelList);
    }
  }

  // ---------------------------------------------------------------------
  // The sorting window.

  /** The smallest element. */
  function Min(s: seq<nat>): (m: nat)
    requires s != []
    ensures m in s && forall i :: 0 <= i < |s| ==> m <= s[i]
  {
    if |s| == 1 then s[0]
    else
      var m := Min(s[..|s| - 1]);
      assert forall i :: 0 <= i < |s| - 1 ==> s[..|s| - 1][i] == s[i];
      if s[|s| - 1] < m then s[|s| - 1] else m
  }

  /** `list.index(x)` for an element that is present. */
  function IndexOf(s: seq<nat>, x: nat): (i: nat)
    requires x in s
    ensures i < |s| && s[i] == x && forall j :: 0 <= j < i ==> s[j] != x
  {
    if s[0] == x then 0 else IndexOf(s[1..], x) + 1
  }

  function Reversed(s: seq<nat>): (r: seq<nat>)
    ensures |r| == |s| && forall i :: 0 <= i < |s| ==> r[i] == s[|s| - 1 - i]
  {
    if s == [] then [] else [s[|s| - 1]] + Reversed(s[..|s| - 1])
  }

  /** `find_appropriate_column` over the columns' frame counts: the index
      of the leftmost or rightmost column with the fewest frames. */
  function FindAppropriateColumn(counts: seq<nat>, prefer: string): (r: Result<nat>)
  {
    if prefer != "leftmost" && prefer != "rightmost" then
      Err(ValueError("Invalid preference. Choose 'leftmost' or 'rightmost'."))
    else if counts == [] then Err(ValueError("min() arg is an empty sequence"))
    else if prefer == "leftmost" then Ok(IndexOf(counts, Min(counts)))
    else
      assert Min(counts) in Reversed(counts) by {
        var m :| 0 <= m < |counts| && counts[m] == Min(counts);
        assert Reversed(counts)[|counts| - 1 - m] == counts[m];
      }
      var k := IndexOf(Reversed(counts), Min(counts));
      var i: nat := |counts| - 1 - k;
      Ok(i)
  }

  /** The column found holds no more frames than any other; every column
      on its preferred side holds more. Other preferences and an empty
      column list are errors. */
  lemma FindAppropriateColumnMeaning(counts: seq<nat>, prefer: string)
    ensures FindAppropriateColumn(counts, prefer).Ok? <==>
      counts != [] && (prefer == "leftmost" || prefer == "rightmost")
    ensures FindAppropriateColumn(counts, prefer).Ok? ==>
      var i := FindAppropriateColumn(counts, prefer).value;
      i < |counts| && (forall j :: 0 <= j < |counts| ==> counts[i] <= counts[j]) &&
      (prefer == "leftmost" ==> forall j :: 0 <= j < i ==> counts[j] > counts[i]) &&
      (prefer == "rightmost" ==> forall j :: i < j < |counts| ==> counts[j] > counts[i])
  {
    if counts != [] && prefer == "rightmost" {
      var r := Reversed(counts);
      assert Min(counts) in r by {
        var m :| 0 <= m < |counts| && counts[m] == Min(counts);
        assert r[|counts| - 1 - m] == counts[m];
      }
      var k := IndexOf(r, Min(counts));
      forall j | |counts| - 1 - k < j < |counts| ensures counts[j] > counts[|counts| - 1 - k] {
        assert r[|counts| - 1 - j] == counts[j];
      }
    }
  }

  /** The substrate names of the frames. */
  function Names(frames: seq<(string, seq<string>)>): seq<string>
  {
    Keys(frames)
  }

  /** `list.remove(x)`: drops the first occurrence. */
  function RemoveFirst(s: seq<string>, x: string): (r: Result<seq<string>>)
    ensures r.Err? <==> x !in s
    ensures r.Err? ==> r.error == ValueError("list.remove(x): x not in list")
  {
    if s == [] then Err(ValueError("list.remove(x): x not in list"))
    else if s[0] == x then Ok(s[1..])
    else
      var t :- RemoveFirst(s[1..], x);
      Ok([s[0]] + t)
  }

  /** The inner loop of `withdraw_and_proceed`: each selected pixel that is
      one of the pixels is removed from the updated list. */
  function WithdrawPixels(updated: seq<string>, pixelList: seq<string>, pixels: seq<string>): Result<seq<string>>
  {
    if pixels == [] then Ok(updated)
    else
      var u :- WithdrawPixels(updated, pixelList, pixels[..|pixels| - 1]);
      var p := pixels[|pixels| - 1];
      if p in pixelList then RemoveFirst(u, p) else Ok(u)
  }

  /** One substrate: its pixels withdrawn, then its name appended if absent. */
  function WithdrawGroup(updated: seq<string>, pixelList: seq<string>, group: (string, seq<string>)): Result<seq<string>>
  {
    var u :- WithdrawPixels(updated, pixelList, group.1);
    Ok(if group.0 in u then u else u + [group.0])
  }

  /** The outer loop of `withdraw_and_proceed` over the substrates. */
  function WithdrawGroups(pixelList: seq<string>, groups: seq<(string, seq<string>)>): Result<seq<string>>
  {
    if groups == [] then Ok(pixelList)
    else
      var u :- WithdrawGroups(pixelList, groups[..|groups| - 1]);
      WithdrawGroup(u, pixelList, groups[|groups| - 1])
  }

  /** The pixels not in `chosen`, in order. */
  function Unchosen(pixels: seq<string>, chosen: seq<string>): (r: seq<string>)
    ensures forall p :: p in r <==> p in pixels && p !in chosen
  {
    if pixels == [] then [] else (if pixels[0] in chosen then [] else [pixels[0]]) + Unchosen(pixels[1..], chosen)
  }

  /** The selected pixels of one substrate that are pixels, in order. */
  function ChosenIn(pixelList: seq<string>, pixels: seq<string>): (r: seq<string>)
    ensures forall p :: p in r ==> p in pixelList
  {
    if pixels == [] then []
    else
      var p := pixels[|pixels| - 1];
      ChosenIn(pixelList, pixels[..|pixels| - 1]) + (if p in pixelList then [p] else [])
  }

  /** The selected pixels of all substrates that are pixels, in order. */
  function Chosen(pixelList: seq<string>, groups: seq<(string, seq<string>)>): (r: seq<string>)
    ensures forall p :: p in r ==> p in pixelList
  {
    if groups == [] then []
    else Chosen(pixelList, groups[..|groups| - 1]) + ChosenIn(pixelList, groups[|groups| - 1].1)
  }

  lemma {:induction false} UnchosenNothing(pixels: seq<string>)
    ensures Unchosen(pixels, []) == pixels
  {
    if pixels != [] {
      UnchosenNothing(pixels[1..]);
    }
  }

  lemma {:induction false} UnchosenIgnores(pixels: seq<string>, chosen: seq<string>, x: string)
    requires x !in pixels
    ensures Unchosen(pixels, chosen + [x]) == Unchosen(pixels, chosen)
  {
    if pixels != [] {
      UnchosenIgnores(pixels[1..], chosen, x);
    }
  }

  /** Removing an element of `a` from `a + b` removes it from `a`. */
  lemma {:induction false} RemoveFirstConcat(a: seq<string>, b: seq<string>, x: string)
    requires x in a
    ensures RemoveFirst(a + b, x) == Ok(RemoveFirst(a, x).value + b)
  {
    assert (a + b)[0] == a[0];
    assert (a + b)[1..] == a[1..] + b;
    if a[0] != x {
      var i :| 0 <= i < |a| && a[i] == x;
      assert a[1..][i - 1] == x;
      RemoveFirstConcat(a[1..], b, x);
      var v := RemoveFirst(a[1..], x).value;
      assert [a[0]] + (v + b) == [a[0]] + v + b;
    }
  }

  /** Removing a pixel not yet chosen drops exactly it from the unchosen part. */
  lemma {:induction false} RemoveUnchosen(pixels: seq<string>, chosen: seq<string>, x: string)
    requires Distinct(pixels) && x in pixels && x !in chosen
    ensures RemoveFirst(Unchosen(pixels, chosen), x) == Ok(Unchosen(pixels, chosen + [x]))
  {
    var rest := pixels[1..];
    var u := Unchosen(rest, chosen);
    if pixels[0] == x {
      assert x !in rest by {
        forall i | 0 <= i < |rest| ensures rest[i] != x {
          assert rest[i] == pixels[i + 1];
        }
      }
      UnchosenIgnores(rest, chosen, x);
      assert Unchosen(pixels, chosen) == [x] + u;
      assert ([x] + u)[1..] == u;
      assert RemoveFirst([x] + u, x) == Ok(u);
      assert Unchosen(pixels, chosen + [x]) == [] + Unchosen(rest, chosen + [x]);
      assert Unchosen(pixels, chosen + [x]) == u;
    } else {
      assert Distinct(rest) by {
        forall i, j | 0 <= i < j < |rest| ensures rest[i] != rest[j] {
          assert rest[i] == pixels[i + 1] && rest[j] == pixels[j + 1];
        }
      }
      RemoveUnchosen(rest, chosen, x);
      if pixels[0] in chosen {
        assert Unchosen(pixels, chosen) == [] + u == u;
        assert Unchosen(pixels, chosen + [x]) == [] + Unchosen(rest, chosen + [x]) == Unchosen(rest, chosen + [x]);
      } else {
        assert Unchosen(pixels, chosen) == [pixels[0]] + u;
        assert ([pixels[0]] + u)[1..] == u;
        assert Unchosen(pixels, chosen + [x]) == [pixels[0]] + Unchosen(rest, chosen + [x]);
      }
    }
  }

  /** The inner loop removes the pixels chosen so far, failing exactly when
      a pixel is chosen a second time. */
  lemma {:induction false} WithdrawPixelsMeaning(pixelList: seq<string>, chosen: seq<string>, names: seq<string>, pixels: seq<string>)
    requires Distinct(pixelList) && forall n :: n in names ==> n !in pixelList
    requires Distinct(chosen)
    ensures WithdrawPixels(Unchosen(pixelList, chosen) + names, pixelList, pixels) ==
      if Distinct(chosen + ChosenIn(pixelList, pixels))
      then Ok(Unchosen(pixelList, chosen + ChosenIn(pixelList, pixels)) + names)
      else Err(ValueError("list.remove(x): x not in list"))
  {
    if pixels != [] {
      var init := pixels[..|pixels| - 1];
      var p := pixels[|pixels| - 1];
      var c := chosen + ChosenIn(pixelList, init);
      WithdrawPixelsMeaning(pixelList, chosen, names, init);
      assert chosen + ChosenIn(pixelList, pixels) == c + (if p in pixelList then [p] else []);
      if !Distinct(c) {
        DistinctPrefix(c, if p in pixelList then [p] else []);
      } else if p in pixelList {
        assert chosen + ChosenIn(pixelList, pixels) == c + [p];
        assert WithdrawPixels(Unchosen(pixelList, chosen) + names, pixelList, pixels) ==
          RemoveFirst(Unchosen(pixelList, c) + names, p);
        if p in c {
          var m :| 0 <= m < |c| && c[m] == p;
          assert (c + [p])[m] == (c + [p])[|c|];
          assert p !in Unchosen(pixelList, c) + names;
        } else {
          RemoveUnchosen(pixelList, c, p);
          RemoveFirstConcat(Unchosen(pixelList, c), names, p);
          assert Distinct(c + [p]) by {
            forall i, j | 0 <= i < j < |c| + 1 ensures (c + [p])[i] != (c + [p])[j] {
              if j == |c| {
                assert (c + [p])[i] == c[i];
              }
            }
          }
        }
      } else {
        assert chosen + ChosenIn(pixelList, pixels) == c;
      }
    } else {
      assert chosen + ChosenIn(pixelList, pixels) == chosen;
    }
  }

  lemma DistinctPrefix(a: seq<string>, b: seq<string>)
    requires !Distinct(a)
    ensures !Distinct(a + b)
  {
    var i, j :| 0 <= i < j < |a| && a[i] == a[j];
    assert (a + b)[i] == (a + b)[j];
  }

  /** `withdraw_and_proceed`'s list: the pixels minus every selected pixel,
      followed by the substrate names; it fails exactly when some pixel is
      selected twice. Substrate names are distinct (the window refuses
      duplicates) and are assumed to differ from pixel names. */
  lemma {:induction false} WithdrawGroupsMeaning(pixelList: seq<string>, groups: seq<(string, seq<string>)>)
    requires Distinct(pixelList) && Distinct(Names(groups))
    requires forall n :: n in Names(groups) ==> n !in pixelList
    ensures WithdrawGroups(pixelList, groups) ==
      if Distinct(Chosen(pixelList, groups))
      then Ok(Unchosen(pixelList, Chosen(pixelList, groups)) + Names(groups))
      else Err(ValueError("list.remove(x): x not in list"))
  {
    if groups == [] {
      UnchosenNothing(pixelList);
      assert Names(groups) == [];
      assert pixelList + [] == pixelList;
    } else {
      var init := groups[..|groups| - 1];
      var g := groups[|groups| - 1];
      KeysConcat(init, [g]);
      assert groups == init + [g];
      assert Names(groups) == Names(init) + [g.0];
      assert Distinct(Names(init)) by {
        forall i, j | 0 <= i < j < |Names(init)| ensures Names(init)[i] != Names(init)[j] {
          assert Names(init)[i] == Names(groups)[i] && Names(init)[j] == Names(groups)[j];
        }
      }
      WithdrawGroupsMeaning(pixelList, init);
      var c := Chosen(pixelList, init);
      if !Distinct(c) {
        DistinctPrefix(c, ChosenIn(pixelList, g.1));
      } else {
        assert g.0 !in Names(init) by {
          forall i | 0 <= i < |Names(init)| ensures Names(init)[i] != g.0 {
            assert Names(groups)[i] == Names(init)[i] && Names(groups)[|init|] == g.0;
          }
        }
        WithdrawGroupStep(pixelList, c, Names(init), g);
      }
    }
  }

  /** One substrate's step: its pixels leave the list and its name joins it. */
  lemma WithdrawGroupStep(pixelList: seq<string>, c: seq<string>, names: seq<string>, g: (string, seq<string>))
    requires Distinct(pixelList) && Distinct(c)
    requires forall n :: n in names + [g.0] ==> n !in pixelList
    requires g.0 !in names
    ensures WithdrawGroup(Unchosen(pixelList, c) + names, pixelList, g) ==
      if Distinct(c + ChosenIn(pixelList, g.1))
      then Ok(Unchosen(pixelList, c + ChosenIn(pixelList, g.1)) + (names + [g.0]))
      else Err(ValueError("list.remove(x): x not in list"))
  {
    WithdrawPixelsMeaning(pixelList, c, names, g.1);
    var c' := c + ChosenIn(pixelList, g.1);
    if Distinct(c') {
      assert g.0 !in Unchosen(pixelList, c') + names;
      assert Unchosen(pixelList, c') + names + [g.0] == Unchosen(pixelList, c') + (names + [g.0]);
    }
  }

  lemma {:induction false} WithdrawPixelsStaysFailed(updated: seq<string>, pixelList: seq<string>, pixels: seq<string>, n: nat)
    requires n <= |pixels| && WithdrawPixels(updated, pixelList, pixels[..n]).Err?
    ensures WithdrawPixels(updated, pixelList, pixels) == WithdrawPixels(updated, pixelList, pixels[..n])
    decreases |pixels| - n
  {
    if n < |pixels| {
      PrefixSnoc(pixels, n + 1);
      WithdrawPixelsStaysFailed(updated, pixelList, pixels, n + 1);
    } else {
      PrefixAll(pixels);
    }
  }

  lemma {:induction false} WithdrawGroupsStaysFailed(pixelList: seq<string>, groups: seq<(string, seq<string>)>, n: nat)
    requires n <= |groups| && WithdrawGroups(pixelList, groups[..n]).Err?
    ensures WithdrawGroups(pixelList, groups) == WithdrawGroups(pixelList, groups[..n])
    decreases |groups| - n
  {
    if n < |groups| {
      PrefixSnoc(groups, n + 1);
      WithdrawGroupsStaysFailed(pixelList, groups, n + 1);
    } else {
      PrefixAll(groups);
    }
  }

  /** The inner loop of `withdraw_and_proceed`. */
  method RemovePixels(updated: seq<string>, pixelList: seq<string>, pixels: seq<string>) returns (r: Result<seq<string>>)
    ensures r == WithdrawPixels(updated, pixelList, pixels)
  {
    var current := updated;
    for j := 0 to |pixels|
      invariant WithdrawPixels(updated, pixelList, pixels[..j]) == Ok(current)
    {
      PrefixSnoc(pixels, j + 1);
      if pixels[j] in pixelList {
        var u := RemoveFirst(current, pixels[j]);
        if u.Err? {
          WithdrawPixelsStaysFailed(updated, pixelList, pixels, j + 1);
          return Err(u.error);
        }
        current := u.value;
      }
    }
    PrefixAll(pixels);
    r := Ok(current);
  }

  /** What `withdraw_and_proceed` does with the frames: nothing when they
      cannot be read or are empty, otherwise the updated device list. */
  function Withdrawal(pixelList: seq<string>, frames: seq<(string, seq<string>)>): Result<Option<seq<string>>>
  {
    if !Distinct(Names(frames)) || frames == [] then Ok(None)
    else
      var u :- WithdrawGroups(pixelList, frames);
      Ok(Some(u))
  }

  class PixelSorterInterface {
    var pixelList: seq<string>
    /** Each substrate frame's name entry and its pixel selections, in frame order. */
    var frames: seq<(string, seq<string>)>
    var currentLayoutState: Option<Dict<string, seq<string>>>

    constructor (pixelList: seq<string>)
      ensures this.pixelList == pixelList && frames == [] && currentLayoutState.None?
    {
      this.pixelList := pixelList;
      frames := [];
      currentLayoutState := None;
    }

    /** `extract_data_to_dict`: the frames as a substrate-to-pixels map,
        or None (after an error message) on a repeated substrate name. */
    method ExtractDataToDict() returns (r: Option<Dict<string, seq<string>>>)
      ensures r.Some? <==> Distinct(Names(frames))
      ensures r.Some? ==> r.value == frames && Valid(r.value)
    {
      var data: Dict<string, seq<string>> := [];
      var seen: set<string> := {};
      for k := 0 to |frames|
        invariant data == frames[..k]
        invariant seen == set i | 0 <= i < k :: frames[i].0
        invariant Distinct(Names(frames[..k]))
      {
        var name := frames[k].0;
        if name in seen {
          var i :| 0 <= i < k && frames[i].0 == name;
          assert Names(frames)[i] == Names(frames)[k];
          return None;
        }
        assert Names(frames[..k + 1]) == Names(frames[..k]) + [name] by {
          PrefixSnoc(frames, k + 1);
          KeysConcat(frames[..k], [frames[k]]);
        }
        PrefixSnoc(frames, k + 1);
        data := data + [(name, frames[k].1)];
        seen := seen + {name};
        assert seen == set i | 0 <= i < k + 1 :: frames[i].0 by {
          forall x | x in seen ensures exists i :: 0 <= i < k + 1 && frames[i].0 == x {
            if x == name {
              assert frames[k].0 == x;
            }
          }
        }
      }
      PrefixAll(frames);
      r := Some(data);
    }

    /** `withdraw_and_proceed`: remembers the layout and returns the device
        list with every grouped pixel replaced by its substrate. */
    method WithdrawAndProceed() returns (r: Result<Option<seq<string>>>)
      modifies this
      ensures pixelList == old(pixelList) && frames == old(frames)
      ensures r == Withdrawal(pixelList, frames)
      ensures Distinct(Names(frames)) && frames != [] ==> currentLayoutState == Some(frames)
      ensures !(Distinct(Names(frames)) && frames != []) ==> currentLayoutState == old(currentLayoutState)
    {
      var readData := ExtractDataToDict();
      if readData.None? || readData.value == [] {
        return Ok(None);
      }
      var groups := readData.value;
      currentLayoutState := readData;
      var updated := pixelList;
      for i := 0 to |groups|
        invariant WithdrawGroups(pixelList, groups[..i]) == Ok(updated)
        invariant pixelList == old(pixelList) && frames == old(frames) && currentLayoutState == readData
      {
        PrefixSnoc(groups, i + 1);
        var u := RemovePixels(updated, pixelList, groups[i].1);
        if u.Err? {
          WithdrawGroupsStaysFailed(pixelList, groups, i + 1);
          return Err(u.error);
        }
        updated := u.value;
        if groups[i].0 !in updated {
          updated := updated + [groups[i].0];
        }
      }
      PrefixAll(groups);
      r := Ok(Some(updated));
    }
  }
}
