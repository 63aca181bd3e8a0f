/**
 * The data service: reading a spreadsheet id out of a link, deciding which discovered
 * tabs a project wants, parsing the CSV a tab is exported as into rows, and finding
 * which header of a tab plays a given role.
 */
module SheetApi {
  import opened Wrappers
  import opened Text
  import opened Seqs
  import opened Rows
  import opened Types

  // ---------------------------------------------------------------------------
  // Spreadsheet ids

  /** The class `[a-zA-Z0-9-_]`. */
  predicate IsIdChar(c: char) {
    ('a' <= c <= 'z') || ('A' <= c <= 'Z') || ('0' <= c <= '9') || c == '-' || c == '_'
  }

  /** Number of leading id characters of `s`. */
  function IdRun(s: string): (n: nat)
    ensures n <= |s|
    ensures forall i :: 0 <= i < n ==> IsIdChar(s[i])
    ensures n < |s| ==> !IsIdChar(s[n])
  {
    if s != [] && IsIdChar(s[0]) then
      var m := IdRun(s[1..]);
      assert forall i :: 0 < i <= m ==> s[i] == s[1..][i - 1];
      m + 1
    else 0
  }

  /** `/\/d\/([a-zA-Z0-9-_]+)/` can match at position `i`. */
  predicate MatchAt(s: string, i: int) {
    0 <= i && i + 4 <= |s| && s[i] == '/' && s[i + 1] == 'd' && s[i + 2] == '/' && IsIdChar(s[i + 3])
  }

  /** The leftmost match at or after `from`. */
  function FindMatch(s: string, from: nat): (r: Option<nat>)
    ensures r.Some? ==> from <= r.value && MatchAt(s, r.value)
    ensures forall j :: from <= j && (r.None? || j < r.value) ==> !MatchAt(s, j)
    decreases |s| - from
  {
    if from + 4 > |s| then None
    else if MatchAt(s, from) then Some(from)
    else FindMatch(s, from + 1)
  }

  /**
   * `extractSpreadsheetId`: the maximal run of id characters after the leftmost
   * `/d/` that is followed by one; the trimmed input when there is none.
   */
  function ExtractSpreadsheetId(input: string): (r: string)
    ensures FindMatch(input, 0).None? ==> r == Trim(input)
    ensures FindMatch(input, 0).Some? ==>
      var i := FindMatch(input, 0).value;
      && |r| > 0
      && i + 3 + |r| <= |input|
      && r == input[i + 3..i + 3 + |r|]
      && (forall k :: 0 <= k < |r| ==> IsIdChar(r[k]))
      && (i + 3 + |r| == |input| || !IsIdChar(input[i + 3 + |r|]))
  {
    match FindMatch(input, 0)
    case Some(i) =>
      var n := IdRun(input[i + 3..]);
      assert input[i + 3..][..n] == input[i + 3..i + 3 + n];
      input[i + 3..i + 3 + n]
    case None => Trim(input)
  }

  lemma NoMatchInIdChars(s: string)
    requires forall k :: 0 <= k < |s| ==> IsIdChar(s[k])
    ensures forall j :: !MatchAt(s, j)
  {
    forall j ensures !MatchAt(s, j) {
      if 0 <= j < |s| {
        assert IsIdChar(s[j]);
      }
    }
  }

  lemma NoMatchInInfix(s: string, t: string, i: int)
    requires InfixAt(s, t, i) && forall j :: !MatchAt(s, j)
    ensures forall j :: !MatchAt(t, j)
  {
    forall j ensures !MatchAt(t, j) {
      assert !MatchAt(s, i + j);
      if 0 <= j && j + 4 <= |t| {
        assert t[j] == s[i + j] && t[j + 1] == s[i + j + 1];
        assert t[j + 2] == s[i + j + 2] && t[j + 3] == s[i + j + 3];
      }
    }
  }

  /** An extracted id extracts to itself. */
  lemma ExtractIdempotent(input: string)
    ensures ExtractSpreadsheetId(ExtractSpreadsheetId(input)) == ExtractSpreadsheetId(input)
  {
    var r := ExtractSpreadsheetId(input);
    match FindMatch(input, 0)
    case Some(i) =>
      NoMatchInIdChars(r);
      assert forall k :: 0 <= k < |r| ==> !IsSpace(r[k]);
      TrimUnpadded(r);
    case None =>
      TrimInfix(input);
      var i :| InfixAt(input, r, i);
      NoMatchInInfix(input, r, i);
      TrimIdempotent(input);
  }

  // ---------------------------------------------------------------------------
  // CSV

  /** Glues `c` onto the front of the first piece. */
  function Combine(c: string, ps: seq<string>): (r: seq<string>)
    requires |ps| >= 1
    ensures |r| == |ps|
  {
    [c + ps[0]] + ps[1..]
  }

  lemma CombineEmpty(ps: seq<string>)
    requires |ps| >= 1
    ensures Combine("", ps) == ps
  {
    assert "" + ps[0] == ps[0];
  }

  lemma CombineEnd(c: string, ps: seq<string>)
    ensures Combine(c, [""] + ps) == [c] + ps
  {
    assert c + "" == c;
  }

  lemma CombineCombine(c: string, d: string, ps: seq<string>)
    requires |ps| >= 1
    ensures Combine(c, Combine(d, ps)) == Combine(c + d, ps)
  {
    assert c + (d + ps[0]) == (c + d) + ps[0];
  }

  /**
   * The records of `s`, read from a state where a quote is open iff `inQuotes`: every
   * `"` flips the state (before the line-feed test), and a line feed outside quotes
   * ends a record. Record text keeps its quotes.
   */
  function Pieces(s: string, inQuotes: bool): (r: seq<string>)
    ensures |r| >= 1
  {
    if s == [] then [""]
    else
      var q := if s[0] == '"' then !inQuotes else inQuotes;
      if s[0] == '\n' && !q then [""] + Pieces(s[1..], q)
      else Combine([s[0]], Pieces(s[1..], q))
  }

  /** The lines `parseCSV` collects: an empty last record is dropped. */
  function Records(csv: string): seq<string> {
    var ps := Pieces(csv, false);
    if ps[|ps| - 1] == "" then ps[..|ps| - 1] else ps
  }

  /** One step of `Pieces` on the suffix of `s` from position `i`. */
  lemma PiecesStep(s: string, i: nat, inQuotes: bool)
    requires i < |s|
    ensures var q := if s[i] == '"' then !inQuotes else inQuotes;
      Pieces(s[i..], inQuotes) ==
        if s[i] == '\n' && !q then [""] + Pieces(s[i + 1..], q) else Combine([s[i]], Pieces(s[i + 1..], q))
  {
    assert s[i..][0] == s[i] && s[i..][1..] == s[i + 1..];
  }

  /** The record-splitting loop of `parseCSV`. */
  method SplitRecords(csv: string) returns (lines: seq<string>)
    ensures lines == Records(csv)
  {
    ghost var all := Pieces(csv, false);
    lines := [];
    var cur := "";
    var inQuotes := false;
    var i := 0;
    assert csv[0..] == csv;
    CombineEmpty(all);
    while i < |csv|
      invariant 0 <= i <= |csv|
      invariant all == lines + Combine(cur, Pieces(csv[i..], inQuotes))
    {
      PiecesStep(csv, i, inQuotes);
      var c := csv[i];
      if c == '"' {
        inQuotes := !inQuotes;
      }
      if c == '\n' && !inQuotes {
        CombineEnd(cur, Pieces(csv[i + 1..], inQuotes));
        CombineEmpty(Pieces(csv[i + 1..], inQuotes));
        lines := lines + [cur];
        cur := "";
      } else {
        CombineCombine(cur, [c], Pieces(csv[i + 1..], inQuotes));
        cur := cur + [c];
      }
      i := i + 1;
    }
    assert csv[i..] == [];
    assert Combine(cur, [""]) == [cur] by {
      assert cur + "" == cur;
    }
    if cur != "" {
      lines := lines + [cur];
    }
  }

  /**
   * The fields of `s`, read from a state where a quote is open iff `inQuotes`: inside
   * quotes `""` is a literal quote, any other `"` flips the state, and a comma outside
   * quotes ends a field.
   */
  function Fields(s: string, inQuotes: bool): (r: seq<string>)
    ensures |r| >= 1
    decreases |s|
  {
    if s == [] then [""]
    else if s[0] == '"' then
      if inQuotes && |s| > 1 && s[1] == '"' then Combine("\"", Fields(s[2..], inQuotes))
      else Fields(s[1..], !inQuotes)
    else if s[0] == ',' && !inQuotes then [""] + Fields(s[1..], inQuotes)
    else Combine([s[0]], Fields(s[1..], inQuotes))
  }

  /** `parseLine`. */
  method ParseLine(line: string) returns (result: seq<string>)
    ensures result == Fields(line, false)
  {
    result := [];
    var cur := "";
    var q := false;
    var i := 0;
    assert line[0..] == line;
    CombineEmpty(Fields(line, false));
    while i < |line|
      invariant 0 <= i <= |line|
      invariant Fields(line, false) == result + Combine(cur, Fields(line[i..], q))
      decreases |line| - i
    {
      ghost var rest := line[i..];
      assert rest[0] == line[i] && rest[1..] == line[i + 1..];
      var c := line[i];
      if c == '"' {
        if q && i + 1 < |line| && line[i + 1] == '"' {
          assert rest[1] == line[i + 1] && rest[2..] == line[i + 2..];
          assert Fields(rest, q) == Combine("\"", Fields(line[i + 2..], q));
          CombineCombine(cur, "\"", Fields(line[i + 2..], q));
          cur := cur + "\"";
          i := i + 1;
        } else {
          assert |rest| > 1 ==> rest[1] == line[i + 1];
          assert Fields(rest, q) == Fields(line[i + 1..], !q);
          q := !q;
        }
      } else if c == ',' && !q {
        assert Fields(rest, q) == [""] + Fields(line[i + 1..], q);
        CombineEnd(cur, Fields(line[i + 1..], q));
        CombineEmpty(Fields(line[i + 1..], q));
        result := result + [cur];
        cur := "";
      } else {
        assert Fields(rest, q) == Combine([c], Fields(line[i + 1..], q));
        CombineCombine(cur, [c], Fields(line[i + 1..], q));
        cur := cur + [c];
      }
      i := i + 1;
    }
    assert line[i..] == [];
    assert Combine(cur, [""]) == [cur] by {
      assert cur + "" == cur;
    }
    result := result + [cur];
  }

  /** `values[i]?.trim() || ""`. */
  function CellText(values: seq<string>, i: nat): string {
    if i < |values| then Trim(values[i]) else ""
  }

  /** The cells of one record under `count` headers. */
  function Cells(values: seq<string>, count: nat): (cells: seq<string>)
    ensures |cells| == count && forall i :: 0 <= i < count ==> cells[i] == CellText(values, i)
  {
    seq(count, i requires 0 <= i < count => CellText(values, i))
  }

  /** The row object after assigning the first `n` headers their cells. */
  function RowPrefix(headers: seq<string>, cells: seq<string>, n: nat): Assoc<string>
    requires n <= |headers| <= |cells|
  {
    if n == 0 then [] else Put(RowPrefix(headers, cells, n - 1), headers[n - 1], cells[n - 1])
  }

  /** The row object for one record: every header is assigned its cell, in header order. */
  function RowFrom(headers: seq<string>, values: seq<string>): Assoc<string> {
    RowPrefix(headers, Cells(values, |headers|), |headers|)
  }

  function TrimAll(xs: seq<string>): (r: seq<string>)
    ensures |r| == |xs| && forall i :: 0 <= i < |xs| ==> r[i] == Trim(xs[i])
  {
    seq(|xs|, i requires 0 <= i < |xs| => Trim(xs[i]))
  }

  /** One row per record, under the given headers. */
  function DataRows(headers: seq<string>, records: seq<string>): (rows: seq<Assoc<string>>)
    ensures |rows| == |records|
  {
    if records == [] then []
    else [RowFrom(headers, Fields(records[0], false))] + DataRows(headers, records[1..])
  }

  lemma {:induction false} DataRowsAt(headers: seq<string>, records: seq<string>, i: nat)
    requires i < |records|
    ensures DataRows(headers, records)[i] == RowFrom(headers, Fields(records[i], false))
  {
    if i > 0 {
      DataRowsAt(headers, records[1..], i - 1);
    }
  }

  /** `parseCSV`: the first record gives the trimmed headers, every later record a row. */
  function CsvRows(csv: string): (rows: seq<Assoc<string>>)
    ensures |Records(csv)| >= 1 ==> |rows| == |Records(csv)| - 1
    ensures |Records(csv)| == 0 ==> rows == []
  {
    var lines := Records(csv);
    if |lines| < 1 then []
    else DataRows(TrimAll(Fields(lines[0], false)), lines[1..])
  }

  /** The `headers.forEach` loop that fills one row object. */
  method BuildRow(headers: seq<string>, values: seq<string>) returns (row: Assoc<string>)
    ensures row == RowFrom(headers, values)
  {
    ghost var cells := Cells(values, |headers|);
    row := [];
    var j := 0;
    while j < |headers|
      invariant 0 <= j <= |headers|
      invariant row == RowPrefix(headers, cells, j)
    {
      assert cells[j] == CellText(values, j);
      assert RowPrefix(headers, cells, j + 1) == Put(row, headers[j], cells[j]);
      row := Put(row, headers[j], CellText(values, j));
      j := j + 1;
    }
  }

  /** `parseCSV` as written: split records, then apply the headers to each later record. */
  method ParseCsv(csv: string) returns (rows: seq<Assoc<string>>)
    ensures rows == CsvRows(csv)
  {
    var lines := SplitRecords(csv);
    if |lines| < 1 {
      return [];
    }
    var first := ParseLine(lines[0]);
    var headers := TrimAll(first);
    rows := [];
    for k := 1 to |lines|
      invariant rows + DataRows(headers, lines[k..]) == DataRows(headers, lines[1..])
    {
      rows := ReadRecord(rows, headers, lines, k);
    }
    assert lines[|lines|..] == [];
  }

  /** One pass of the loop over the later records: the record's row goes last. */
  method ReadRecord(rows: seq<Assoc<string>>, headers: seq<string>, lines: seq<string>, k: nat)
    returns (rows': seq<Assoc<string>>)
    requires 1 <= k < |lines|
    requires rows + DataRows(headers, lines[k..]) == DataRows(headers, lines[1..])
    ensures rows' + DataRows(headers, lines[k + 1..]) == DataRows(headers, lines[1..])
  {
    var values := ParseLine(lines[k]);
    var row := BuildRow(headers, values);
    assert lines[k..][1..] == lines[k + 1..];
    assert DataRows(headers, lines[k..]) == [row] + DataRows(headers, lines[k + 1..]);
    rows' := rows + [row];
  }

  /** A row's keys are exactly the headers. */
  lemma {:induction false} RowKeySet(headers: seq<string>, cells: seq<string>, n: nat)
    requires n <= |headers| <= |cells|
    ensures forall k :: k in Keys(RowPrefix(headers, cells, n)) <==> k in headers[..n]
  {
    if n > 0 {
      RowKeySet(headers, cells, n - 1);
      assert headers[..n] == headers[..n - 1] + [headers[n - 1]];
      PutKeySet(RowPrefix(headers, cells, n - 1), headers[n - 1], cells[n - 1]);
    }
  }

  /** A row lists each key once, array-index keys first and ascending. */
  lemma {:induction false} RowShape(headers: seq<string>, cells: seq<string>, n: nat)
    requires n <= |headers| <= |cells|
    ensures NoDup(Keys(RowPrefix(headers, cells, n)))
    ensures ObjectOrder(RowPrefix(headers, cells, n))
  {
    if n > 0 {
      RowShape(headers, cells, n - 1);
      var a := RowPrefix(headers, cells, n - 1);
      PutKeepsDistinct(a, headers[n - 1], cells[n - 1]);
      PutKeepsOrder(a, headers[n - 1], cells[n - 1]);
    }
  }

  /** A header reads the cell of its last occurrence among the headers. */
  lemma RowStep(headers: seq<string>, cells: seq<string>, n: nat, x: string)
    requires 0 < n <= |headers| <= |cells|
    ensures Get(RowPrefix(headers, cells, n), x) ==
      if x == headers[n - 1] then Some(cells[n - 1]) else Get(RowPrefix(headers, cells, n - 1), x)
  {
    PutGet(RowPrefix(headers, cells, n - 1), headers[n - 1], cells[n - 1], x);
  }

  lemma {:induction false} RowCell(headers: seq<string>, cells: seq<string>, n: nat, i: nat)
    requires i < n <= |headers| <= |cells|
    requires forall j :: i < j < n ==> headers[j] != headers[i]
    ensures Get(RowPrefix(headers, cells, n), headers[i]) == Some(cells[i])
  {
    RowStep(headers, cells, n, headers[i]);
    if i < n - 1 {
      RowCell(headers, cells, n - 1, i);
    }
  }

  /** Distinct headers that are not array indices become the row's keys in header order. */
  lemma {:induction false} RowKeysInOrder(headers: seq<string>, cells: seq<string>, n: nat)
    requires n <= |headers| <= |cells| && NoDup(headers)
    requires forall j :: 0 <= j < |headers| ==> !IsArrayIndex(headers[j])
    ensures Keys(RowPrefix(headers, cells, n)) == headers[..n]
  {
    if n > 0 {
      RowKeysInOrder(headers, cells, n - 1);
      assert headers[..n] == headers[..n - 1] + [headers[n - 1]];
      var a := RowPrefix(headers, cells, n - 1);
      assert headers[n - 1] !in Keys(a);
      PutShape(a, headers[n - 1], cells[n - 1]);
      KeysConcat(a, [(headers[n - 1], cells[n - 1])]);
    }
  }

  /** No record at all comes out of empty text, so no rows either. */
  lemma EmptyCsv()
    ensures Records("") == [] && CsvRows("") == []
  {
  }

  /** Quote-free text: a line feed inside an open quote does not end the record. */
  lemma {:induction false} PiecesInQuotes(x: string, s: string)
    requires '"' !in x
    ensures Pieces(x + s, true) == Combine(x, Pieces(s, true))
  {
    if x == [] {
      assert x + s == s;
      CombineEmpty(Pieces(s, true));
    } else {
      assert (x + s)[0] == x[0] && (x + s)[1..] == x[1..] + s;
      PiecesInQuotes(x[1..], s);
      CombineCombine([x[0]], x[1..], Pieces(s, true));
      assert [x[0]] + x[1..] == x;
    }
  }

  /** Without quotes, records are the line-feed-separated pieces. */
  lemma {:induction false} PiecesUnquoted(s: string)
    requires '"' !in s
    ensures Pieces(s, false) == Split(s, '\n')
  {
    if s != [] {
      assert '"' !in s[1..] by {
        assert forall c :: c in s[1..] ==> c in s;
      }
      PiecesUnquoted(s[1..]);
    }
  }

  /** Without quotes, the fields are the comma-separated pieces. */
  lemma {:induction false} FieldsUnquoted(s: string)
    requires '"' !in s
    ensures Fields(s, false) == Split(s, ',')
  {
    if s != [] {
      assert '"' !in s[1..] by {
        assert forall c :: c in s[1..] ==> c in s;
      }
      FieldsUnquoted(s[1..]);
    }
  }

  // ---------------------------------------------------------------------------
  // Header resolution

  /** What `normalize` deletes: the class `[\s\-_]`. */
  predicate IsSeparator(c: char) {
    IsSpace(c) || c == '-' || c == '_'
  }

  predicate Kept(c: char) {
    !IsSeparator(c)
  }

  /**
   * `normalize`: lower-cased, with every run of white space, `-` and `_` deleted,
   * then trimmed.
   */
  function Normalize(s: string): string {
    Trim(Filter(ToLower(s), Kept))
  }

  /** A normalized name has no upper-case letter and no separator. */
  lemma NormalizeShape(s: string)
    ensures forall i :: 0 <= i < |Normalize(s)| ==>
      !IsSeparator(Normalize(s)[i]) && !('A' <= Normalize(s)[i] <= 'Z')
  {
    var f := Filter(ToLower(s), Kept);
    assert Normalize(s) == f by {
      if f != [] {
        assert f[0] in f && f[|f| - 1] in f;
      }
      TrimUnpadded(f);
    }
    forall i | 0 <= i < |f| ensures !IsSeparator(f[i]) && !('A' <= f[i] <= 'Z') {
      assert f[i] in f;
    }
  }

  lemma {:induction false} FilterKeepsAll(s: string)
    requires forall i :: 0 <= i < |s| ==> Kept(s[i])
    ensures Filter(s, Kept) == s
  {
    if s != [] {
      FilterKeepsAll(s[..|s| - 1]);
    }
  }

  /** Normalizing a normalized name changes nothing. */
  lemma NormalizeIdempotent(s: string)
    ensures Normalize(Normalize(s)) == Normalize(s)
  {
    var n := Normalize(s);
    NormalizeShape(s);
    assert ToLower(n) == n;
    FilterKeepsAll(n);
    TrimUnpadded(n);
  }

  /** The alias lists `findKey` consults, keyed by normalized role name. */
  const AliasTable: map<string, seq<string>> := map[
    "username" := ["username", "user", "userid", "user_name"],
    "annotatorname" := ["annotatorname", "annotator", "name", "worker", "annotator_name"],
    "frameid" := ["frameid", "frame", "id", "imageid", "frame_id"],
    "numberofobjectannotated" := ["numberofobjectannotated", "objects", "objectcount", "totalobjects",
                                  "annotatedobjects", "object_count"],
    "date" := ["date", "timestamp", "createdat"],
    "logintime" := ["logintime", "login", "timein", "clockin", "login_time", "starttime"],
    "internalqcname" := ["internalqcname", "internalqc", "qcname", "qcby", "verifiedby", "qc_name",
                         "qa_name", "qa"],
    "internalpolygonerrorcount" := ["internalpolygonerrorcount", "errorcount", "errors", "polygonerrors",
                                    "error_count", "totalerrors", "internal_errors"]
  ]

  /** The normalized form of every key. */
  function NormalizeAll(keys: seq<string>): (r: seq<string>)
    ensures |r| == |keys| && forall j :: 0 <= j < |keys| ==> r[j] == Normalize(keys[j])
  {
    seq(|keys|, j requires 0 <= j < |keys| => Normalize(keys[j]))
  }

  /** The position of the first entry of `ns` that is one of `names`. */
  function FindFirst(ns: seq<string>, names: seq<string>): (r: Option<nat>)
    ensures r.Some? ==> r.value < |ns| && ns[r.value] in names
    ensures r.Some? ==> forall j :: 0 <= j < r.value ==> ns[j] !in names
    ensures r.None? ==> forall j :: 0 <= j < |ns| ==> ns[j] !in names
  {
    if ns == [] then None
    else if ns[0] in names then Some(0)
    else
      match FindFirst(ns[1..], names)
      case None => None
      case Some(i) => Some(i + 1)
  }

  /** The first entry that is one of `names` is the one `FindFirst` finds. */
  lemma FindFirstAt(ns: seq<string>, names: seq<string>, i: nat)
    requires i < |ns| && ns[i] in names
    requires forall j :: 0 <= j < i ==> ns[j] !in names
    ensures FindFirst(ns, names) == Some(i)
  {
    var r := FindFirst(ns, names);
    assert r.Some?;
    assert !(r.value < i);
    assert !(r.value > i);
  }

  /** The names a target role may be spelt as: its alias list, or just itself. */
  function PossibleMatches(t: string): (r: seq<string>)
    ensures t in r
  {
    if t in AliasTable then AliasTable[t] else [t]
  }

  /**
   * `findKey`: the first key that normalizes to the normalized target (unless that key
   * is the empty string), else the first key whose normalized form is one of the
   * target's aliases.
   */
  function FindKey(keys: seq<string>, target: string): (r: Option<string>)
    ensures keys == [] ==> r.None?
    ensures r.Some? ==> r.value in keys && Normalize(r.value) in PossibleMatches(Normalize(target))
    ensures r.None? ==> forall k :: k in keys ==> Normalize(k) !in PossibleMatches(Normalize(target))
  {
    if keys == [] then None
    else
      var ns := NormalizeAll(keys);
      var t := Normalize(target);
      var exact := FindFirst(ns, [t]);
      if exact.Some? && keys[exact.value] != "" then Some(keys[exact.value])
      else
        match FindFirst(ns, PossibleMatches(t))
        case None => None
        case Some(i) => Some(keys[i])
  }

  /** The first key normalizing to the normalized target wins, if it is not empty. */
  lemma FindKeyExact(keys: seq<string>, target: string, i: nat)
    requires i < |keys| && keys[i] != "" && Normalize(keys[i]) == Normalize(target)
    requires forall j :: 0 <= j < i ==> Normalize(keys[j]) != Normalize(target)
    ensures FindKey(keys, target) == Some(keys[i])
  {
    var ns := NormalizeAll(keys);
    var t := Normalize(target);
    FindFirstAt(ns, [t], i);
  }

  /** Without an exact match, the first key spelt like one of the aliases wins. */
  lemma FindKeyAlias(keys: seq<string>, target: string, i: nat)
    requires forall j :: 0 <= j < |keys| ==> Normalize(keys[j]) != Normalize(target)
    requires i < |keys| && Normalize(keys[i]) in PossibleMatches(Normalize(target))
    requires forall j :: 0 <= j < i ==> Normalize(keys[j]) !in PossibleMatches(Normalize(target))
    ensures FindKey(keys, target) == Some(keys[i])
  {
  }

  /** A target without an alias list and without an exact match resolves to nothing. */
  lemma FindKeyMiss(keys: seq<string>, target: string)
    requires Normalize(target) !in AliasTable
    requires forall j :: 0 <= j < |keys| ==> Normalize(keys[j]) != Normalize(target)
    ensures FindKey(keys, target).None?
  {
  }

  /** An alias spelt with `_` never matches, since `normalize` deletes every `_`. */
  lemma UnderscoreAliasUnreachable(k: string, a: string)
    requires '_' in a
    ensures Normalize(k) != a
  {
    NormalizeShape(k);
  }

  /** Deleting one separator anywhere does not change the normalized name. */
  lemma NormalizeDropsSeparator(a: string, c: char, b: string)
    requires IsSeparator(c)
    ensures Normalize(a + [c] + b) == Normalize(a + b)
  {
    assert ToLower(a + [c] + b) == ToLower(a) + [c] + ToLower(b);
    assert ToLower(a + b) == ToLower(a) + ToLower(b);
    FilterConcat(ToLower(a) + [c], ToLower(b), Kept);
    FilterConcat(ToLower(a), [c], Kept);
    FilterConcat(ToLower(a), ToLower(b), Kept);
    assert Filter([c], Kept) == [];
  }

  /** The normalized name does not depend on letter case. */
  lemma NormalizeIgnoresCase(s: string)
    ensures Normalize(ToUpper(s)) == Normalize(s)
    ensures Normalize(ToLower(s)) == Normalize(s)
  {
    assert ToLower(ToUpper(s)) == ToLower(s);
    assert ToLower(ToLower(s)) == ToLower(s);
  }

  // ---------------------------------------------------------------------------
  // Sheet discovery

  /**
   * What the spreadsheet's public page yields: the tab names matched by the primary
   * pattern and by the fallback pattern, each in document order, or `Inaccessible`
   * when the page cannot be fetched.
   */
  datatype SheetPage = Inaccessible | Page(primary: seq<string>, fallback: seq<string>)

  /** The tab filter of `fetchSheetList`, by project category, ignoring case. */
  predicate Wanted(category: Category, name: string) {
    name != "" && !StartsWith(name, "__") &&
    var lower := ToLower(name);
    match category
    case Production => Contains(lower, "production") || Contains(lower, "qc")
    case Hourly => Contains(lower, "login") || Contains(lower, "attendance")
  }

  /** The wanted names among `names`, in order. */
  function WantedNames(category: Category, names: seq<string>): (r: seq<string>)
    ensures forall n :: n in r <==> n in names && Wanted(category, n)
  {
    if names == [] then []
    else
      var init := names[..|names| - 1];
      var last := names[|names| - 1];
      assert forall n :: n in names <==> n in init || n == last;
      WantedNames(category, init) + if Wanted(category, last) then [last] else []
  }

  /**
   * The tabs a project is offered: the distinct wanted names of the primary matches;
   * when there is none, those of the fallback matches; nothing when the page failed.
   */
  function Discovered(page: SheetPage, category: Category): (r: seq<string>)
    ensures NoDup(r)
    ensures page.Inaccessible? ==> r == []
    ensures page.Page? && (exists n :: n in page.primary && Wanted(category, n)) ==>
      forall n :: n in r <==> n in page.primary && Wanted(category, n)
    ensures page.Page? && (forall n :: n in page.primary ==> !Wanted(category, n)) ==>
      forall n :: n in r <==> n in page.fallback && Wanted(category, n)
  {
    match page
    case Inaccessible => []
    case Page(primary, fallback) =>
      var found := Dedup(WantedNames(category, primary));
      if found != [] then found
      else
        assert forall n :: n in primary ==> !Wanted(category, n);
        Dedup(WantedNames(category, fallback))
  }

  /** One scanning loop of `fetchSheetList`: adds every wanted candidate to a set. */
  method CollectWanted(candidates: seq<string>, category: Category) returns (names: seq<string>)
    ensures names == Dedup(WantedNames(category, candidates))
  {
    names := [];
    var i := 0;
    while i < |candidates|
      invariant 0 <= i <= |candidates|
      invariant names == Dedup(WantedNames(category, candidates[..i]))
    {
      var name := candidates[i];
      assert candidates[..i + 1][..i] == candidates[..i];
      ghost var w := WantedNames(category, candidates[..i]);
      if Wanted(category, name) {
        assert WantedNames(category, candidates[..i + 1]) == w + [name];
        assert (w + [name])[..|w|] == w;
        if name !in names {
          names := names + [name];
        }
      } else {
        assert WantedNames(category, candidates[..i + 1]) == w;
      }
      i := i + 1;
    }
    assert candidates[..i] == candidates;
  }

  /** `fetchSheetList` over the candidate names its page yields. */
  method FetchSheetList(page: SheetPage, category: Category) returns (names: seq<string>)
    ensures names == Discovered(page, category)
  {
    if page.Inaccessible? {
      return [];
    }
    names := CollectWanted(page.primary, category);
    if |names| == 0 {
      names := CollectWanted(page.fallback, category);
    }
  }

  /** The tab filter does not depend on letter case. */
  lemma WantedIgnoresCase(category: Category, name: string)
    ensures Wanted(category, ToUpper(name)) == Wanted(category, name)
  {
    assert ToLower(ToUpper(name)) == ToLower(name);
    var u := ToUpper(name);
    if |name| >= 2 {
      assert u[..2] == "__" <==> name[..2] == "__" by {
        assert u[0] == UpperChar(name[0]) && u[1] == UpperChar(name[1]);
      }
    }
  }
}
