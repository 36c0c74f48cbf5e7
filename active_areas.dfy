/** The active-area detector of the JV plotter: it picks the file in a data
    folder whose name is most similar to "Active area" (a JSON file wins
    when it is nearly as similar) and reads device areas from it. */
module ActiveAreas {
  import opened Wrappers
  import opened Dicts
  import opened Strs
  import Frames
  import TV = Treeviews

  /** A cell of a workbook row, as openpyxl hands it over. */
  datatype Cell = Text(s: string) | Number(x: real) | Blank

  /** What the detector reads from disk: the folder listing in `os.listdir`
      order, `os.path.exists` (present), the lines of a text file, the key/value pairs
      of a JSON object in file order and the rows of a workbook's active
      sheet; all keyed by path. */
  datatype Disk = Disk(
    listing: seq<string>,
    present: string -> bool,
    lines: string -> seq<string>,
    json: string -> seq<(string, TV.Detected)>,
    sheet: string -> seq<seq<Cell>>)

  type Areas = Dict<string, TV.Detected>

  /** Names closer than this to "Active area" are candidates. */
  const THRESHOLD: real := 0.6
  /** A JSON candidate at most this much less similar replaces the best one. */
  const JSON_MARGIN: real := 0.06

  predicate IsJson(f: string)
  {
    EndsWith(f, ".json")
  }

  predicate Anything(f: string)
  {
    true
  }

  /** The file name ends with one of the readers' suffixes. */
  predicate Readable(f: string)
  {
    EndsWith(f, ".txt") || IsJson(f) || EndsWith(f, ".xlsx")
  }

  /** The listing's readable files whose similarity to "Active area"
      (`similar`) exceeds the threshold, in listing order. */
  function Candidates(listing: seq<string>, similar: string -> real): (r: seq<string>)
    ensures forall f :: f in r <==> f in listing && Readable(f) && similar(f) > THRESHOLD
    ensures |r| <= |listing|
  {
    if listing == [] then []
    else
      var f := listing[|listing| - 1];
      var init := Candidates(listing[..|listing| - 1], similar);
      assert listing == listing[..|listing| - 1] + [f];
      if Readable(f) && similar(f) > THRESHOLD then init + [f] else init
  }

  /** `os.path.splitext(f)[1]`. */
  function Extension(f: string): (ext: string)
    ensures Stem(f) + ext == f
  {
    f[|Stem(f)|..]
  }

  /** A name with an extension has exactly that extension. */
  lemma ExtensionOfName(name: string, ext: string)
    requires exists j | 0 <= j < |name| :: name[j] != '.'
    requires '/' !in name && '.' !in ext && '/' !in ext
    ensures Extension(name + "." + ext) == "." + ext
  {
    StemStripsExtension(name, ext);
  }

  /** `os.path.join(path, f)` for a plain file name `f`. */
  function PathJoin(path: string, f: string): (r: string)
    ensures EndsWith(r, f)
  {
    if path == [] || EndsWith(path, "/") then path + f else path + "/" + f
  }

  // ---------------------------------------------------------------------
  // Ranking: `sort(key=similarity, reverse=True)` is stable.

  /** Puts `x` behind every element at least as similar. */
  function Insert(r: seq<string>, x: string, similar: string -> real): (s: seq<string>)
    ensures |s| == |r| + 1
  {
    if r == [] then [x]
    else if similar(r[0]) < similar(x) then [x] + r
    else [r[0]] + Insert(r[1..], x, similar)
  }

  /** The candidates from most to least similar, equals in listing order. */
  function Ranked(s: seq<string>, similar: string -> real): (r: seq<string>)
    ensures |r| == |s|
  {
    if s == [] then [] else Insert(Ranked(s[..|s| - 1], similar), s[|s| - 1], similar)
  }

  predicate Descending(r: seq<string>, similar: string -> real)
  {
    forall i, j :: 0 <= i < j < |r| ==> similar(r[i]) >= similar(r[j])
  }

  lemma {:induction false} InsertKeeps(r: seq<string>, x: string, similar: string -> real)
    ensures multiset(Insert(r, x, similar)) == multiset(r) + multiset{x}
    decreases |r|
  {
    if r != [] && similar(r[0]) >= similar(x) {
      InsertKeeps(r[1..], x, similar);
      assert r == [r[0]] + r[1..];
    }
  }

  lemma {:induction false} InsertDescending(r: seq<string>, x: string, similar: string -> real)
    requires Descending(r, similar)
    ensures Descending(Insert(r, x, similar), similar)
    decreases |r|
  {
    if r != [] && similar(r[0]) >= similar(x) {
      InsertDescending(r[1..], x, similar);
      InsertKeeps(r[1..], x, similar);
      var t := Insert(r[1..], x, similar);
      forall k | 0 <= k < |t| ensures similar(r[0]) >= similar(t[k]) {
        assert t[k] in multiset(t);
        assert t[k] == x || t[k] in multiset(r[1..]);
        if t[k] != x {
          var m :| 0 <= m < |r[1..]| && r[1..][m] == t[k];
          assert r[m + 1] == t[k];
        }
      }
    }
  }

  /** The ranking is a permutation of the candidates, most similar first. */
  lemma {:induction false} RankedSorted(s: seq<string>, similar: string -> real)
    ensures multiset(Ranked(s, similar)) == multiset(s)
    ensures Descending(Ranked(s, similar), similar)
  {
    if s != [] {
      var init := s[..|s| - 1];
      RankedSorted(init, similar);
      InsertKeeps(Ranked(init, similar), s[|s| - 1], similar);
      InsertDescending(Ranked(init, similar), s[|s| - 1], similar);
      assert s == init + [s[|s| - 1]];
    }
  }

  /** The first element satisfying `p`. */
  function FirstWhere(r: seq<string>, p: string -> bool): (w: Option<string>)
    ensures w.Some? ==> w.value in r && p(w.value)
    ensures w.None? <==> forall i :: 0 <= i < |r| ==> !p(r[i])
  {
    if r == [] then None else if p(r[0]) then Some(r[0]) else FirstWhere(r[1..], p)
  }

  /** The first element satisfying `p` is the one at the first index that does. */
  lemma {:induction false} FirstWhereAt(r: seq<string>, p: string -> bool, i: nat)
    requires i < |r| && p(r[i]) && forall j :: 0 <= j < i ==> !p(r[j])
    ensures FirstWhere(r, p) == Some(r[i])
  {
    if i > 0 {
      FirstWhereAt(r[1..], p, i - 1);
    }
  }

  /** Reference definition: among the elements satisfying `p`, the most
      similar one, the earliest among equals. */
  function FirstMax(s: seq<string>, p: string -> bool, similar: string -> real): (w: Option<string>)
    ensures w.Some? ==> w.value in s && p(w.value)
    ensures w.Some? ==> forall i :: 0 <= i < |s| && p(s[i]) ==> similar(s[i]) <= similar(w.value)
    ensures w.None? <==> forall i :: 0 <= i < |s| ==> !p(s[i])
  {
    if s == [] then None
    else
      var x := s[|s| - 1];
      var m := FirstMax(s[..|s| - 1], p, similar);
      assert forall i :: 0 <= i < |s| - 1 ==> s[..|s| - 1][i] == s[i];
      if p(x) && (m.None? || similar(x) > similar(m.value)) then Some(x) else m
  }

  lemma {:induction false} InsertFirst(r: seq<string>, x: string, p: string -> bool, similar: string -> real)
    requires Descending(r, similar)
    ensures FirstWhere(Insert(r, x, similar), p) ==
      if p(x) && (FirstWhere(r, p).None? || similar(x) > similar(FirstWhere(r, p).value))
      then Some(x) else FirstWhere(r, p)
    decreases |r|
  {
    if r != [] {
      var w := FirstWhere(r, p);
      if w.Some? {
        var m :| 0 <= m < |r| && r[m] == w.value;
        assert similar(r[0]) >= similar(w.value);
      }
      if similar(r[0]) >= similar(x) {
        InsertFirst(r[1..], x, p, similar);
      }
    }
  }

  /** The first element of the ranking satisfying `p` is the reference
      choice: the most similar such candidate, earliest in the listing. */
  lemma {:induction false} RankedFirst(s: seq<string>, p: string -> bool, similar: string -> real)
    ensures FirstWhere(Ranked(s, similar), p) == FirstMax(s, p, similar)
  {
    if s != [] {
      var init := s[..|s| - 1];
      RankedFirst(init, p, similar);
      RankedSorted(init, similar);
      InsertFirst(Ranked(init, similar), s[|s| - 1], p, similar);
    }
  }

  /** Reference definition of the file `check_directory` reads: the most
      similar candidate, replaced by the most similar JSON candidate when
      their similarities differ by less than the margin. */
  function Choice(cands: seq<string>, similar: string -> real): (c: Option<string>)
    ensures c.Some? <==> cands != []
    ensures c.Some? ==> c.value in cands
    ensures c.Some? && !IsJson(c.value) ==>
      forall i :: 0 <= i < |cands| && IsJson(cands[i]) ==>
        Frames.Abs(similar(cands[i]) - similar(FirstMax(cands, Anything, similar).value)) >= JSON_MARGIN
  {
    match FirstMax(cands, Anything, similar)
    case None => None
    case Some(best) =>
      match FirstMax(cands, IsJson, similar)
      case Some(j) =>
        if Frames.Abs(similar(j) - similar(best)) < JSON_MARGIN then Some(j) else Some(best)
      case None => Some(best)
  }

  /** The best entry of the ranking is its first one. */
  lemma RankedBest(cands: seq<string>, similar: string -> real)
    requires cands != []
    ensures FirstMax(cands, Anything, similar) == Some(Ranked(cands, similar)[0])
  {
    RankedFirst(cands, Anything, similar);
    FirstWhereAt(Ranked(cands, similar), Anything, 0);
  }

  /** The scan stops at the `k`-th ranked file, a close JSON file: that is the choice. */
  lemma ChoiceFound(cands: seq<string>, similar: string -> real, k: nat)
    requires k < |Ranked(cands, similar)|
    requires IsJson(Ranked(cands, similar)[k])
    requires Frames.Abs(similar(Ranked(cands, similar)[k]) - similar(Ranked(cands, similar)[0])) < JSON_MARGIN
    requires forall i :: 0 <= i < k ==>
      !(IsJson(Ranked(cands, similar)[i]) &&
        Frames.Abs(similar(Ranked(cands, similar)[i]) - similar(Ranked(cands, similar)[0])) < JSON_MARGIN)
    ensures Choice(cands, similar) == Some(Ranked(cands, similar)[k])
  {
    var r := Ranked(cands, similar);
    RankedSorted(cands, similar);
    RankedBest(cands, similar);
    forall i | 0 <= i < k ensures !IsJson(r[i]) {
      assert similar(r[0]) >= similar(r[i]) >= similar(r[k]);
    }
    FirstWhereAt(r, IsJson, k);
    RankedFirst(cands, IsJson, similar);
    ChoiceOf(cands, similar, r[0], r[k]);
  }

  /** The choice, given the most similar candidate and the most similar
      JSON candidate. */
  lemma ChoiceOf(cands: seq<string>, similar: string -> real, best: string, json: string)
    requires FirstMax(cands, Anything, similar) == Some(best) && FirstMax(cands, IsJson, similar) == Some(json)
    ensures Choice(cands, similar) == if Frames.Abs(similar(json) - similar(best)) < JSON_MARGIN then Some(json) else Some(best)
  {
  }

  /** The scan finds no close JSON file: the most similar file is the choice. */
  lemma ChoiceNotFound(cands: seq<string>, similar: string -> real)
    requires cands != []
    requires forall i :: 0 <= i < |Ranked(cands, similar)| ==>
      !(IsJson(Ranked(cands, similar)[i]) &&
        Frames.Abs(similar(Ranked(cands, similar)[i]) - similar(Ranked(cands, similar)[0])) < JSON_MARGIN)
    ensures Choice(cands, similar) == Some(Ranked(cands, similar)[0])
  {
    var r := Ranked(cands, similar);
    RankedBest(cands, similar);
    RankedFirst(cands, IsJson, similar);
    var w := FirstWhere(r, IsJson);
    if w.Some? {
      var m :| 0 <= m < |r| && r[m] == w.value;
    }
  }

  // ---------------------------------------------------------------------
  // Readers.

  /** The error of unpacking `n` values into two names. */
  function UnpackError(n: nat): Error
  {
    if n < 2 then ValueError("not enough values to unpack (expected 2, got " + NatToString(n) + ")")
    else ValueError("too many values to unpack (expected 2)")
  }

  /** The white-space separated fields of a text line. */
  function Fields(line: string): seq<string>
  {
    Words(Strip(line))
  }

  /** One text line, given its fields: a device name and its area. */
  function TxtEntry(fields: seq<string>, parse: string -> Option<real>): (r: Result<(string, TV.Detected)>)
    ensures r.Ok? <==> |fields| == 2 && parse(fields[1]).Some?
    ensures r.Ok? ==> r.value == (fields[0], TV.Area(parse(fields[1]).value))
    ensures r.Err? ==> r.error.ValueError?
  {
    if |fields| != 2 then Err(UnpackError(|fields|))
    else
      var x :- TV.Parsed(parse, fields[1]);
      Ok((fields[0], TV.Area(x)))
  }

  /** The fields of every line. */
  function LineFields(lines: seq<string>): (r: seq<seq<string>>)
    ensures |r| == |lines|
    ensures forall k :: 0 <= k < |lines| ==> r[k] == Fields(lines[k])
  {
    seq(|lines|, k requires 0 <= k < |lines| => Fields(lines[k]))
  }

  /** The entries of all lines, or the first line's error. */
  function TxtEntries(rows: seq<seq<string>>, parse: string -> Option<real>): Result<seq<(string, TV.Detected)>>
  {
    if rows == [] then Ok([])
    else
      var init :- TxtEntries(rows[..|rows| - 1], parse);
      var e :- TxtEntry(rows[|rows| - 1], parse);
      Ok(init + [e])
  }

  /** The areas of the lines' fields, later lines overriding earlier ones. */
  function FieldAreas(rows: seq<seq<string>>, parse: string -> Option<real>): (r: Result<Areas>)
    ensures r.Ok? ==> Valid(r.value)
  {
    var es :- TxtEntries(rows, parse);
    Ok(PutAll(es))
  }

  /** `process_txt`: every line parsed, later lines overriding earlier ones. */
  function TxtAreas(lines: seq<string>, parse: string -> Option<real>): (r: Result<Areas>)
    ensures r.Ok? ==> Valid(r.value)
  {
    FieldAreas(LineFields(lines), parse)
  }

  /** A text file reads when every line reads, and the entries are then
      the lines' entries in order. */
  lemma {:induction false} TxtEntriesOk(rows: seq<seq<string>>, parse: string -> Option<real>)
    ensures TxtEntries(rows, parse).Ok? <==> forall j :: 0 <= j < |rows| ==> TxtEntry(rows[j], parse).Ok?
    ensures TxtEntries(rows, parse).Ok? ==>
      |TxtEntries(rows, parse).value| == |rows| &&
      forall j :: 0 <= j < |rows| ==> TxtEntries(rows, parse).value[j] == TxtEntry(rows[j], parse).value
  {
    if rows != [] {
      var init := rows[..|rows| - 1];
      var last := rows[|rows| - 1];
      TxtEntriesOk(init, parse);
      assert forall j :: 0 <= j < |init| ==> init[j] == rows[j];
      if TxtEntries(init, parse).Ok? && TxtEntry(last, parse).Ok? {
        assert TxtEntries(rows, parse).value == TxtEntries(init, parse).value + [TxtEntry(last, parse).value];
      }
    }
  }

  /** A text file that does not read fails with the first failing line's
      error. */
  lemma {:induction false} TxtEntriesErr(rows: seq<seq<string>>, parse: string -> Option<real>)
    ensures TxtEntries(rows, parse).Err? ==>
      exists j :: 0 <= j < |rows| &&
        TxtEntry(rows[j], parse).Err? &&
        TxtEntries(rows, parse) == Err(TxtEntry(rows[j], parse).error) &&
        forall i :: 0 <= i < j ==> TxtEntry(rows[i], parse).Ok?
  {
    if rows != [] {
      var init := rows[..|rows| - 1];
      TxtEntriesErr(init, parse);
      assert forall j :: 0 <= j < |init| ==> init[j] == rows[j];
      if TxtEntries(init, parse).Ok? {
        TxtEntriesOk(init, parse);
      }
    }
  }

  /** A text file reads when every line reads; the entries are the lines'
      entries in order, and a failure is the first failing line's. */
  lemma TxtEntriesMeaning(rows: seq<seq<string>>, parse: string -> Option<real>)
    ensures TxtEntries(rows, parse).Ok? <==> forall j :: 0 <= j < |rows| ==> TxtEntry(rows[j], parse).Ok?
    ensures TxtEntries(rows, parse).Ok? ==>
      |TxtEntries(rows, parse).value| == |rows| &&
      forall j :: 0 <= j < |rows| ==> TxtEntries(rows, parse).value[j] == TxtEntry(rows[j], parse).value
    ensures TxtEntries(rows, parse).Err? ==>
      exists j :: 0 <= j < |rows| &&
        TxtEntry(rows[j], parse).Err? &&
        TxtEntries(rows, parse) == Err(TxtEntry(rows[j], parse).error) &&
        forall i :: 0 <= i < j ==> TxtEntry(rows[i], parse).Ok?
  {
    TxtEntriesOk(rows, parse);
    TxtEntriesErr(rows, parse);
  }

  /** `float(cell)`: numbers as they are, text parsed, an empty cell refused. */
  function CellNumber(c: Cell, parse: string -> Option<real>): (r: Result<real>)
    ensures c.Number? ==> r == Ok(c.x)
    ensures c.Blank? ==> r.Err? && r.error.TypeError?
  {
    match c
    case Number(x) => Ok(x)
    case Text(s) => TV.Parsed(parse, s)
    case Blank => Err(TypeError("float() argument must be a string or a real number, not 'NoneType'"))
  }

  /** The dictionary key a device cell becomes. */
  function CellKey(c: Cell, show: real -> string): string
  {
    match c
    case Text(s) => s
    case Number(x) => show(x)
    case Blank => "None"
  }

  /** One sheet row: exactly a device cell and an area cell. */
  function RowEntry(row: seq<Cell>, parse: string -> Option<real>, show: real -> string): (r: Result<(string, TV.Detected)>)
    ensures r.Ok? <==> |row| == 2 && CellNumber(row[1], parse).Ok?
    ensures r.Ok? ==> r.value == (CellKey(row[0], show), TV.Area(CellNumber(row[1], parse).value))
  {
    if |row| != 2 then Err(UnpackError(|row|))
    else
      var x :- CellNumber(row[1], parse);
      Ok((CellKey(row[0], show), TV.Area(x)))
  }

  function SheetEntries(rows: seq<seq<Cell>>, parse: string -> Option<real>, show: real -> string): Result<seq<(string, TV.Detected)>>
  {
    if rows == [] then Ok([])
    else
      var init :- SheetEntries(rows[..|rows| - 1], parse, show);
      var e :- RowEntry(rows[|rows| - 1], parse, show);
      Ok(init + [e])
  }

  /** `process_xlsx`: every row read, later rows overriding earlier ones. */
  function SheetAreas(rows: seq<seq<Cell>>, parse: string -> Option<real>, show: real -> string): (r: Result<Areas>)
    ensures r.Ok? ==> Valid(r.value)
  {
    var es :- SheetEntries(rows, parse, show);
    Ok(PutAll(es))
  }

  /** A sheet reads when every row reads, and the entries are then the
      rows' entries in order. */
  lemma {:induction false} SheetEntriesOk(rows: seq<seq<Cell>>, parse: string -> Option<real>, show: real -> string)
    ensures SheetEntries(rows, parse, show).Ok? <==> forall j :: 0 <= j < |rows| ==> RowEntry(rows[j], parse, show).Ok?
    ensures SheetEntries(rows, parse, show).Ok? ==>
      |SheetEntries(rows, parse, show).value| == |rows| &&
      forall j :: 0 <= j < |rows| ==> SheetEntries(rows, parse, show).value[j] == RowEntry(rows[j], parse, show).value
  {
    if rows != [] {
      var init := rows[..|rows| - 1];
      var last := rows[|rows| - 1];
      SheetEntriesOk(init, parse, show);
      assert forall j :: 0 <= j < |init| ==> init[j] == rows[j];
      if SheetEntries(init, parse, show).Ok? && RowEntry(last, parse, show).Ok? {
        assert SheetEntries(rows, parse, show).value == SheetEntries(init, parse, show).value + [RowEntry(last, parse, show).value];
      }
    }
  }

  /** A sheet that does not read fails with the first failing row's error. */
  lemma {:induction false} SheetEntriesErr(rows: seq<seq<Cell>>, parse: string -> Option<real>, show: real -> string)
    ensures SheetEntries(rows, parse, show).Err? ==>
      exists j :: 0 <= j < |rows| &&
        RowEntry(rows[j], parse, show).Err? &&
        SheetEntries(rows, parse, show) == Err(RowEntry(rows[j], parse, show).error) &&
        forall i :: 0 <= i < j ==> RowEntry(rows[i], parse, show).Ok?
  {
    if rows != [] {
      var init := rows[..|rows| - 1];
      SheetEntriesErr(init, parse, show);
      assert forall j :: 0 <= j < |init| ==> init[j] == rows[j];
      if SheetEntries(init, parse, show).Ok? {
        SheetEntriesOk(init, parse, show);
      }
    }
  }

  /** A sheet reads when every row reads; the entries are the rows' entries
      in order, and a failure is the first failing row's. */
  lemma SheetEntriesMeaning(rows: seq<seq<Cell>>, parse: string -> Option<real>, show: real -> string)
    ensures SheetEntries(rows, parse, show).Ok? <==> forall j :: 0 <= j < |rows| ==> RowEntry(rows[j], parse, show).Ok?
    ensures SheetEntries(rows, parse, show).Ok? ==>
      |SheetEntries(rows, parse, show).value| == |rows| &&
      forall j :: 0 <= j < |rows| ==> SheetEntries(rows, parse, show).value[j] == RowEntry(rows[j], parse, show).value
    ensures SheetEntries(rows, parse, show).Err? ==>
      exists j :: 0 <= j < |rows| &&
        RowEntry(rows[j], parse, show).Err? &&
        SheetEntries(rows, parse, show) == Err(RowEntry(rows[j], parse, show).error) &&
        forall i :: 0 <= i < j ==> RowEntry(rows[i], parse, show).Ok?
  {
    SheetEntriesOk(rows, parse, show);
    SheetEntriesErr(rows, parse, show);
  }

  /** `json.load` of an object: a later duplicate key overrides. */
  function JsonAreas(pairs: seq<(string, TV.Detected)>): (d: Areas)
    ensures Valid(d)
    ensures forall k :: Has(d, k) <==> exists j :: 0 <= j < |pairs| && pairs[j].0 == k
  {
    forall k ensures Has(PutAll(pairs), k) <==> exists j :: 0 <= j < |pairs| && pairs[j].0 == k {
      PutAllLastWins(pairs, k);
    }
    PutAll(pairs)
  }

  /** The reader the file's extension selects; an extension without a
      reader is a KeyError. */
  function ReadAreas(disk: Disk, path: string, f: string, parse: string -> Option<real>, show: real -> string): (r: Result<Areas>)
    ensures Extension(f) !in {".txt", ".json", ".xlsx"} ==> r == Err(KeyError(Extension(f)))
    ensures Extension(f) == ".json" ==> r.Ok?
    ensures r.Ok? ==> Valid(r.value)
  {
    var ext := Extension(f);
    var filepath := PathJoin(path, f);
    if ext == ".txt" then TxtAreas(disk.lines(filepath), parse)
    else if ext == ".json" then Ok(JsonAreas(disk.json(filepath)))
    else if ext == ".xlsx" then SheetAreas(disk.sheet(filepath), parse, show)
    else Err(KeyError(ext))
  }

  /** The loop of `process_txt`. */
  method ReadTxt(rows: seq<seq<string>>, parse: string -> Option<real>) returns (r: Result<Areas>)
    ensures r == FieldAreas(rows, parse)
  {
    var data: Areas := [];
    ghost var es: seq<(string, TV.Detected)> := [];
    for k := 0 to |rows|
      invariant TxtEntries(rows[..k], parse) == Ok(es)
      invariant data == PutAll(es)
    {
      TxtNext(rows, k, parse, es);
      var fields := rows[k];
      if |fields| != 2 {
        TxtStaysFailed(rows, k + 1, parse);
        PrefixAll(rows);
        return Err(UnpackError(|fields|));
      }
      var x := parse(fields[1]);
      if x.None? {
        TxtStaysFailed(rows, k + 1, parse);
        PrefixAll(rows);
        return Err(ValueError("could not convert string to float: '" + fields[1] + "'"));
      }
      data := Put(data, fields[0], TV.Area(x.value));
      PutAllSnoc(es, (fields[0], TV.Area(x.value)));
      es := es + [(fields[0], TV.Area(x.value))];
      assert TxtEntries(rows[..k + 1], parse) == Ok(es);
    }
    PrefixAll(rows);
    r := Ok(data);
  }

  /** One line more after a prefix that reads. */
  lemma TxtNext(rows: seq<seq<string>>, k: nat, parse: string -> Option<real>, es: seq<(string, TV.Detected)>)
    requires k < |rows| && TxtEntries(rows[..k], parse) == Ok(es)
    ensures TxtEntries(rows[..k + 1], parse) ==
      match TxtEntry(rows[k], parse)
      case Ok(e) => Ok(es + [e])
      case Err(x) => Err(x)
  {
    PrefixSnoc(rows, k + 1);
  }

  lemma {:induction false} TxtStaysFailed(rows: seq<seq<string>>, n: nat, parse: string -> Option<real>)
    requires n <= |rows| && TxtEntries(rows[..n], parse).Err?
    ensures TxtEntries(rows, parse) == TxtEntries(rows[..n], parse)
    decreases |rows| - n
  {
    if n < |rows| {
      PrefixSnoc(rows, n + 1);
      TxtStaysFailed(rows, n + 1, parse);
    } else {
      PrefixAll(rows);
    }
  }

  lemma PutAllSnoc<K, V>(es: seq<(K, V)>, e: (K, V))
    ensures PutAll(es + [e]) == Put(PutAll(es), e.0, e.1)
  {
    assert (es + [e])[..|es|] == es;
  }

  /** The loop of `process_xlsx`. */
  method ReadSheet(rows: seq<seq<Cell>>, parse: string -> Option<real>, show: real -> string) returns (r: Result<Areas>)
    ensures r == SheetAreas(rows, parse, show)
  {
    var data: Areas := [];
    ghost var es: seq<(string, TV.Detected)> := [];
    for k := 0 to |rows|
      invariant SheetEntries(rows[..k], parse, show) == Ok(es)
      invariant data == PutAll(es)
    {
      SheetNext(rows, k, parse, show, es);
      var row := rows[k];
      if |row| != 2 {
        SheetStaysFailed(rows, k + 1, parse, show);
        PrefixAll(rows);
        return Err(UnpackError(|row|));
      }
      var x := CellNumber(row[1], parse);
      if x.Err? {
        SheetStaysFailed(rows, k + 1, parse, show);
        PrefixAll(rows);
        return Err(x.error);
      }
      var e := (CellKey(row[0], show), TV.Area(x.value));
      data := Put(data, e.0, e.1);
      PutAllSnoc(es, e);
      es := es + [e];
      assert SheetEntries(rows[..k + 1], parse, show) == Ok(es);
    }
    PrefixAll(rows);
    r := Ok(data);
  }

  /** One row more after a prefix that reads. */
  lemma SheetNext(rows: seq<seq<Cell>>, k: nat, parse: string -> Option<real>, show: real -> string,
                  es: seq<(string, TV.Detected)>)
    requires k < |rows| && SheetEntries(rows[..k], parse, show) == Ok(es)
    ensures SheetEntries(rows[..k + 1], parse, show) ==
      match RowEntry(rows[k], parse, show)
      case Ok(e) => Ok(es + [e])
      case Err(x) => Err(x)
  {
    PrefixSnoc(rows, k + 1);
  }

  lemma {:induction false} SheetStaysFailed(rows: seq<seq<Cell>>, n: nat, parse: string -> Option<real>, show: real -> string)
    requires n <= |rows| && SheetEntries(rows[..n], parse, show).Err?
    ensures SheetEntries(rows, parse, show) == SheetEntries(rows[..n], parse, show)
    decreases |rows| - n
  {
    if n < |rows| {
      PrefixSnoc(rows, n + 1);
      SheetStaysFailed(rows, n + 1, parse, show);
    } else {
      PrefixAll(rows);
    }
  }

  /** `self.processors[extension]()` on the file `f` of folder `path`. */
  method ReadFile(disk: Disk, path: string, f: string, parse: string -> Option<real>, show: real -> string) returns (r: Result<Areas>)
    ensures r == ReadAreas(disk, path, f, parse, show)
  {
    var ext := Extension(f);
    var filepath := PathJoin(path, f);
    if ext == ".txt" {
      r := ReadTxt(LineFields(disk.lines(filepath)), parse);
    } else if ext == ".json" {
      r := Ok(JsonAreas(disk.json(filepath)));
    } else if ext == ".xlsx" {
      r := ReadSheet(disk.sheet(filepath), parse, show);
    } else {
      r := Err(KeyError(ext));
    }
  }

  /** The outcome of `check_directory`: None without candidates, otherwise
      what the chosen file's reader gives. */
  function Detection(disk: Disk, path: string, similar: string -> real, parse: string -> Option<real>, show: real -> string): Result<Option<Areas>>
  {
    match Choice(Candidates(disk.listing, similar), similar)
    case None => Ok(None)
    case Some(f) =>
      var d :- ReadAreas(disk, path, f, parse, show);
      Ok(Some(d))
  }

  /** With a file chosen, the detection is what that file's reader gives. */
  lemma DetectionOf(disk: Disk, path: string, similar: string -> real, parse: string -> Option<real>, show: real -> string,
                    best: string)
    requires Choice(Candidates(disk.listing, similar), similar) == Some(best)
    ensures var d := ReadAreas(disk, path, best, parse, show);
      Detection(disk, path, similar, parse, show) == if d.Ok? then Ok(Some(d.value)) else Err(d.error)
  {
  }

  /** The chosen file read, its areas wrapped as the detection's outcome. */
  method ReadChosen(disk: Disk, path: string, similar: string -> real, parse: string -> Option<real>, show: real -> string,
                    best: string) returns (r: Result<Option<Areas>>)
    requires Choice(Candidates(disk.listing, similar), similar) == Some(best)
    ensures r == Detection(disk, path, similar, parse, show)
  {
    var d := ReadFile(disk, path, best, parse, show);
    r := if d.Ok? then Ok(Some(d.value)) else Err(d.error);
    DetectionOf(disk, path, similar, parse, show, best);
  }

  /** The scan of `check_directory` over the ranked candidates: the first
      JSON file close to the best one, else the best one. */
  method BestFile(valid: seq<string>, similar: string -> real) returns (best: string)
    requires valid != []
    ensures Choice(valid, similar) == Some(best)
  {
    var ranked := Ranked(valid, similar);
    best := ranked[0];
    var bestSimilarity := similar(best);
    var k := 0;
    while k < |ranked|
      invariant k <= |ranked|
      invariant forall i :: 0 <= i < k ==>
        !(IsJson(ranked[i]) && Frames.Abs(similar(ranked[i]) - bestSimilarity) < JSON_MARGIN)
    {
      if IsJson(ranked[k]) && Frames.Abs(similar(ranked[k]) - bestSimilarity) < JSON_MARGIN {
        ChoiceFound(valid, similar, k);
        best := ranked[k];
        return;
      }
      k := k + 1;
    }
    ChoiceNotFound(valid, similar);
  }

  class ActiveAreaDetector {
    var path: string
    var filepath: string
    var activeAreaJson: Option<string>

    constructor (path: string, activeAreaJson: Option<string>)
      ensures this.path == path && this.activeAreaJson == activeAreaJson && filepath == ""
    {
      this.path := path;
      this.activeAreaJson := activeAreaJson;
      filepath := "";
    }

    /** Areas from a given JSON file that exists, otherwise none. */
    method LoadPredefinedAreas(disk: Disk) returns (r: Areas)
      ensures activeAreaJson.Some? && activeAreaJson.value != "" && disk.present(activeAreaJson.value) ==>
        r == JsonAreas(disk.json(activeAreaJson.value))
      ensures activeAreaJson.None? || activeAreaJson.value == "" || !disk.present(activeAreaJson.value) ==> r == []
    {
      if activeAreaJson.Some? && activeAreaJson.value != "" && disk.present(activeAreaJson.value) {
        r := JsonAreas(disk.json(activeAreaJson.value));
      } else {
        r := [];
      }
    }

    /** Ranks the candidates, prefers a close JSON file, remembers the chosen
        file's path and reads it. */
    method CheckDirectory(disk: Disk, similar: string -> real, parse: string -> Option<real>, show: real -> string)
      returns (r: Result<Option<Areas>>)
      modifies this`filepath
      ensures path == old(path) && activeAreaJson == old(activeAreaJson)
      ensures r == Detection(disk, path, similar, parse, show)
      ensures Choice(Candidates(disk.listing, similar), similar).None? ==> filepath == old(filepath)
      ensures Choice(Candidates(disk.listing, similar), similar).Some? ==>
        filepath == PathJoin(path, Choice(Candidates(disk.listing, similar), similar).value)
    {
      var valid := Candidates(disk.listing, similar);
      if valid == [] {
        assert Choice(valid, similar).None?;
        return Ok(None);
      }
      var best := BestFile(valid, similar);
      filepath := PathJoin(path, best);
      r := ReadChosen(disk, path, similar, parse, show, best);
    }
  }
}
