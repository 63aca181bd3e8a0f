/**
 * The data table (components/DataTable.tsx): the filter columns and their options,
 * the search and filter predicates, the per-column totals of the visible rows, the
 * overall attendance total and the lines of the CSV export.
 *
 * A table row is a JavaScript object held as an ordered association list; a cell
 * is a string or a number, and a missing key is `undefined`.
 */
module DataTable {
  import opened Wrappers
  import opened Text
  import opened Seqs
  import opened Rows
  import SheetApi

  type Row = Assoc<Value>

  /** The selected values per filter column (`selectedFilters`). */
  type Selected = Assoc<seq<string>>

  // ---------------------------------------------------------------------------
  // Cell coercions

  /** `String(row[col] || '')`: a missing cell, the empty string and the number 0 all read as `''`. */
  function Shown(row: Row, col: string): (r: string)
    ensures r == "" <==> Get(row, col) in {None, Some(Str("")), Some(Num(0))}
  {
    var cell: Option<Value> := Get(row, col);
    match cell
    case None => ""
    case Some(Str(s)) => s
    case Some(Num(n)) =>
      if n == 0 then "" else
        IntToStringShape(n);
        IntToString(n)
  }

  /** A rendered integer starts with a minus sign or a digit. */
  lemma IntToStringShape(n: int)
    ensures |IntToString(n)| > 0
    ensures IntToString(n)[0] == '-' || IsDigit(IntToString(n)[0])
  {
    if n >= 0 {
      assert IntToString(n) == NatToString(n);
    }
  }

  // ---------------------------------------------------------------------------
  // Filter columns and their options

  /** `filterColumns || headers.slice(0, 3)`: an array, even an empty one, is truthy. */
  function FilterColumns(filterColumns: Option<seq<string>>, headers: seq<string>): (r: seq<string>)
    ensures filterColumns.Some? ==> r == filterColumns.value
    ensures filterColumns.None? ==> r <= headers && |r| == (if |headers| < 3 then |headers| else 3)
  {
    match filterColumns
    case Some(cols) => cols
    case None => if |headers| < 3 then headers else headers[..3]
  }

  /** The values a filter offers: not `''`, `'undefined'` or `'null'`. */
  predicate Listed(v: string) {
    v != "" && v != "undefined" && v != "null"
  }

  /** `data.map(row => String(row[col] || ''))`. */
  function Column(data: seq<Row>, col: string): (r: seq<string>)
    ensures |r| == |data|
    ensures forall i :: 0 <= i < |data| ==> r[i] == Shown(data[i], col)
    ensures forall i :: 0 <= i < |data| ==>
      (r[i] == "" <==> Get(data[i], col) in {None, Some(Str("")), Some(Num(0))})
  {
    seq(|data|, i requires 0 <= i < |data| => Shown(data[i], col))
  }

  /** The options of one filter column: the distinct listed values, sorted. */
  function Options(data: seq<Row>, col: string): seq<string> {
    SortStrings(Filter(Dedup(Column(data, col)), Listed))
  }

  /**
   * A column's options are sorted and distinct, and they are exactly the listed
   * values some row shows in that column.
   */
  lemma OptionsFacts(data: seq<Row>, col: string)
    ensures SortedStrings(Options(data, col)) && NoDup(Options(data, col))
    ensures forall v :: v in Options(data, col) <==>
      Listed(v) && exists i :: 0 <= i < |data| && Shown(data[i], col) == v
  {
    var c := Column(data, col);
    var d := Dedup(c);
    var f := Filter(d, Listed);
    FilterNoDup(d, Listed);
    NoDupPermutation(Options(data, col), f);
    forall v ensures v in Options(data, col) <==> Listed(v) && exists i :: 0 <= i < |data| && Shown(data[i], col) == v {
      assert v in Options(data, col) <==> v in multiset(f);
      if v in c {
        var i :| 0 <= i < |c| && c[i] == v;
        assert Shown(data[i], col) == v;
      }
    }
  }

  function OptionsOf(data: seq<Row>): string -> Option<seq<string>> {
    col => Some(Options(data, col))
  }

  /** `filterableData`: each filter column mapped to its options, assigned in column order. */
  function FilterableData(data: seq<Row>, cols: seq<string>): Assoc<seq<string>> {
    PutEach(cols, OptionsOf(data))
  }

  /** Every filter column reads its own options; nothing else has an entry. */
  lemma FilterableDataGet(data: seq<Row>, cols: seq<string>, c: string)
    ensures Get(FilterableData(data, cols), c) == if c in cols then Some(Options(data, c)) else None
  {
    PutEachGet(cols, OptionsOf(data), c);
  }

  // ---------------------------------------------------------------------------
  // Selected filter values

  /** `prev[column] || []`. */
  function Selection(sel: Selected, column: string): seq<string> {
    Get(sel, column).GetOr([])
  }

  /** `toggleFilterValue`. */
  function ToggleFilterValue(prev: Selected, column: string, value: string): Selected {
    Put(prev, column, Toggle(Selection(prev, column), value))
  }

  /**
   * Toggling a value flips its membership in that column's selection and no other
   * value's; an absent value goes last, a present one is removed keeping the order of
   * the rest; every other column keeps its entry.
   */
  lemma ToggleFilterValueEffect(prev: Selected, column: string, value: string)
    ensures Get(ToggleFilterValue(prev, column, value), column) == Some(Toggle(Selection(prev, column), value))
    ensures forall y :: y in Selection(ToggleFilterValue(prev, column, value), column) <==>
      if y == value then value !in Selection(prev, column) else y in Selection(prev, column)
    ensures value !in Selection(prev, column) ==>
      Selection(ToggleFilterValue(prev, column, value), column) == Selection(prev, column) + [value]
    ensures value in Selection(prev, column) ==>
      Subsequence(Selection(ToggleFilterValue(prev, column, value), column), Selection(prev, column))
    ensures forall c :: c != column ==> Get(ToggleFilterValue(prev, column, value), c) == Get(prev, c)
  {
    var next := Toggle(Selection(prev, column), value);
    PutGet(prev, column, next, column);
    ToggleMembers(Selection(prev, column), value);
    ToggleOrder(Selection(prev, column), value);
    forall c | c != column ensures Get(ToggleFilterValue(prev, column, value), c) == Get(prev, c) {
      PutGet(prev, column, next, c);
    }
  }

  /** Toggling the same value twice restores the column's selection as a set. */
  lemma ToggleFilterValueTwice(prev: Selected, column: string, value: string)
    ensures forall y :: y in Selection(ToggleFilterValue(ToggleFilterValue(prev, column, value), column, value), column) <==>
      y in Selection(prev, column)
  {
    var once := ToggleFilterValue(prev, column, value);
    ToggleFilterValueEffect(prev, column, value);
    ToggleFilterValueEffect(once, column, value);
  }

  // ---------------------------------------------------------------------------
  // Search and filters

  /** The search term is empty, or some header's shown cell contains it, ignoring case. */
  predicate MatchesSearch(row: Row, headers: seq<string>, term: string) {
    term == "" || exists h :: h in headers && Contains(ToLower(Shown(row, h)), ToLower(term))
  }

  /** `Object.entries(selectedFilters).every(...)`. */
  predicate MatchesFilters(row: Row, filters: Selected)
    decreases |filters|
  {
    filters == [] ||
      ((filters[0].1 == [] || Shown(row, filters[0].0) in filters[0].1) && MatchesFilters(row, filters[1..]))
  }

  /**
   * A column with an empty selection imposes nothing; otherwise the row's shown value
   * in that column must be one of the selected values.
   */
  lemma {:induction false} MatchesFiltersIff(row: Row, filters: Selected)
    ensures MatchesFilters(row, filters) <==>
      forall i :: 0 <= i < |filters| ==> filters[i].1 == [] || Shown(row, filters[i].0) in filters[i].1
  {
    if filters != [] {
      MatchesFiltersIff(row, filters[1..]);
      assert forall i :: 0 < i < |filters| ==> filters[i] == filters[1..][i - 1];
    }
  }

  predicate Matches(row: Row, headers: seq<string>, term: string, filters: Selected) {
    MatchesSearch(row, headers, term) && MatchesFilters(row, filters)
  }

  function Keep(headers: seq<string>, term: string, filters: Selected): Row -> bool {
    row => Matches(row, headers, term, filters)
  }

  /** `filteredData`. */
  function FilteredData(data: seq<Row>, headers: seq<string>, term: string, filters: Selected): seq<Row> {
    Filter(data, Keep(headers, term, filters))
  }

  /** The visible rows are the matching rows of `data`, in their order. */
  lemma FilteredDataOrder(data: seq<Row>, headers: seq<string>, term: string, filters: Selected)
    ensures Subsequence(FilteredData(data, headers, term, filters), data)
    ensures forall row :: row in FilteredData(data, headers, term, filters) <==>
      row in data && MatchesSearch(row, headers, term) && MatchesFilters(row, filters)
  {
    FilterSubsequence(data, Keep(headers, term, filters));
  }

  /** With no search term and no selected value, every row is visible. */
  lemma FilteredDataAll(data: seq<Row>, headers: seq<string>, filters: Selected)
    requires forall i :: 0 <= i < |filters| ==> filters[i].1 == []
    ensures FilteredData(data, headers, "", filters) == data
  {
    forall row | row in data ensures Keep(headers, "", filters)(row) {
      MatchesFiltersIff(row, filters);
    }
    FilterAll(data, Keep(headers, "", filters));
  }

  // ---------------------------------------------------------------------------
  // Totals

  datatype Label = Count | Sum

  /** A column total: a count or a sum, or the three attendance counts. */
  datatype Total = Numeric(value: int, kind: Label) | Attendance(present: nat, absent: nat, half: nat)

  /** The header lower-cased with white space, `-` and `_` deleted. */
  function NormHeader(h: string): string {
    Filter(ToLower(h), SheetApi.Kept)
  }

  const SumKeys: seq<string> := ["framecount", "objectcount", "errorcount", "numberofobjectannotated"]

  /** Neither `null` nor `undefined`, and not blank once rendered and trimmed. */
  predicate NonBlank(v: Option<Value>) {
    match v
    case None => false
    case Some(Str(s)) => Trim(s) != ""
    case Some(Num(_)) => true
  }

  function NonBlankIn(header: string): Row -> bool {
    row => NonBlank(Get(row, header))
  }

  /** The number of rows with a non-blank cell under `header`. */
  function FrameCount(rows: seq<Row>, header: string): nat {
    |Filter(rows, NonBlankIn(header))|
  }

  /** `columnValues`: the shown cells upper-cased. */
  function ColumnValues(rows: seq<Row>, header: string): (r: seq<string>)
    ensures |r| == |rows|
  {
    seq(|rows|, i requires 0 <= i < |rows| => ToUpper(Shown(rows[i], header)))
  }

  /** `col.filter(v => v === s).length`. */
  function Occurrences(col: seq<string>, s: string): nat {
    |Filter(col, v => v == s)|
  }

  lemma OccursIn(col: seq<string>, s: string)
    requires Occurrences(col, s) > 0
    ensures s in col
  {
    var f := Filter(col, v => v == s);
    assert f[0] in f;
  }

  predicate AttendanceWord(v: string) {
    v == "PRESENT" || v == "ABSENT" || v == "NIL" || v == "P(1/2)"
  }

  predicate IsAttendanceColumn(col: seq<string>) {
    exists v :: v in col && AttendanceWord(v)
  }

  /** `Number(cell) || 0`: not a number, and `undefined`, count as 0. */
  function NumberOr0(v: Option<Value>): int {
    match v
    case None => 0
    case Some(Num(n)) => n
    case Some(Str(s)) => StringToNumber(s).GetOr(0)
  }

  function CellNumber(header: string): Row -> int {
    row => NumberOr0(Get(row, header))
  }

  function ColumnSum(rows: seq<Row>, header: string): int {
    Seqs.Sum(rows, CellNumber(header))
  }

  /** Neither `null`, `undefined` nor `""`. */
  predicate Filled(v: Option<Value>) {
    v.Some? && v != Some(Str(""))
  }

  /** The first filled cell under `header` (`filteredData.find(...)`). */
  function Sample(rows: seq<Row>, header: string): (r: Option<Value>)
    ensures r.Some? ==> Filled(r)
  {
    if rows == [] then None
    else if Filled(Get(rows[0], header)) then Get(rows[0], header)
    else Sample(rows[1..], header)
  }

  predicate IsNumeric(v: Value) {
    match v
    case Num(_) => true
    case Str(s) => StringToNumber(s).Some?
  }

  /** The total `totals` assigns to one header, or none. */
  function TotalFor(rows: seq<Row>, header: string): Option<Total> {
    var norm := NormHeader(header);
    if norm == "videoid" then None
    else if norm == "frameid" then Some(Numeric(FrameCount(rows, header), Count))
    else
      var col := ColumnValues(rows, header);
      var p := Occurrences(col, "PRESENT");
      var l := Occurrences(col, "ABSENT");
      var h := Occurrences(col, "P(1/2)");
      if IsAttendanceColumn(col) && (p > 0 || l > 0 || h > 0) then Some(Attendance(p, l, h))
      else if norm in SumKeys then Some(Numeric(ColumnSum(rows, header), Sum))
      else
        match Sample(rows, header)
        case Some(v) => if IsNumeric(v) then Some(Numeric(ColumnSum(rows, header), Sum)) else None
        case None => None
  }

  /**
   * The kinds of total: Video ID has none; exactly Frame ID gets a count, and it is at
   * most the number of rows; a column is typed attendance exactly when (it is neither
   * of those and) some cell reads PRESENT, ABSENT or P(1/2) ignoring case, and then it
   * carries those three counts; a sum is the column's numeric sum; a sum column that
   * is not attendance is always summed.
   */
  lemma TotalForKinds(rows: seq<Row>, header: string)
    ensures NormHeader(header) == "videoid" ==> TotalFor(rows, header).None?
    ensures (TotalFor(rows, header).Some? && TotalFor(rows, header).value.Numeric? &&
      TotalFor(rows, header).value.kind == Count) <==> NormHeader(header) == "frameid"
    ensures NormHeader(header) == "frameid" ==> TotalFor(rows, header).value.value <= |rows|
    ensures (TotalFor(rows, header).Some? && TotalFor(rows, header).value.Attendance?) <==>
      NormHeader(header) != "videoid" && NormHeader(header) != "frameid" &&
      (Occurrences(ColumnValues(rows, header), "PRESENT") > 0 ||
       Occurrences(ColumnValues(rows, header), "ABSENT") > 0 ||
       Occurrences(ColumnValues(rows, header), "P(1/2)") > 0)
    ensures TotalFor(rows, header).Some? && TotalFor(rows, header).value.Attendance? ==>
      TotalFor(rows, header).value == Attendance(
        Occurrences(ColumnValues(rows, header), "PRESENT"),
        Occurrences(ColumnValues(rows, header), "ABSENT"),
        Occurrences(ColumnValues(rows, header), "P(1/2)"))
    ensures (TotalFor(rows, header).Some? && TotalFor(rows, header).value.Numeric? &&
      TotalFor(rows, header).value.kind == Sum) ==> TotalFor(rows, header).value.value == ColumnSum(rows, header)
    ensures NormHeader(header) in SumKeys ==> (TotalFor(rows, header).Some? &&
      (TotalFor(rows, header).value.Attendance? || TotalFor(rows, header).value == Numeric(ColumnSum(rows, header), Sum)))
  {
    var col := ColumnValues(rows, header);
    if Occurrences(col, "PRESENT") > 0 {
      OccursIn(col, "PRESENT");
    } else if Occurrences(col, "ABSENT") > 0 {
      OccursIn(col, "ABSENT");
    } else if Occurrences(col, "P(1/2)") > 0 {
      OccursIn(col, "P(1/2)");
    }
  }

  function TotalOf(rows: seq<Row>): string -> Option<Total> {
    header => TotalFor(rows, header)
  }

  /** `totals` as a specification: the headers' totals assigned in header order. */
  function TotalsOf(rows: seq<Row>, headers: seq<string>): Assoc<Total> {
    PutEach(headers, TotalOf(rows))
  }

  /** Each header reads its own total; no other key has one. */
  lemma TotalsGet(rows: seq<Row>, headers: seq<string>, h: string)
    ensures Get(TotalsOf(rows, headers), h) == if h in headers then TotalFor(rows, h) else None
  {
    PutEachGet(headers, TotalOf(rows), h);
  }

  /** One pass of the `headers.forEach` body. */
  method TotalsStep(results: Assoc<Total>, rows: seq<Row>, headers: seq<string>, i: nat) returns (results': Assoc<Total>)
    requires i < |headers| && results == TotalsOf(rows, headers[..i])
    ensures results' == TotalsOf(rows, headers[..i + 1])
  {
    var header := headers[i];
    assert headers[..i + 1][..i] == headers[..i];
    var t := TotalFor(rows, header);
    if t.Some? {
      results' := Put(results, header, t.value);
    } else {
      results' := results;
    }
  }

  /** `totals`: fills the record header by header. */
  method Totals(rows: seq<Row>, headers: seq<string>) returns (results: Assoc<Total>)
    ensures results == TotalsOf(rows, headers)
  {
    results := [];
    for i := 0 to |headers|
      invariant results == TotalsOf(rows, headers[..i])
    {
      results := TotalsStep(results, rows, headers, i);
    }
    TakeAll(headers);
  }

  // ---------------------------------------------------------------------------
  // Overall attendance

  datatype Tally = Tally(present: int, half: int, absent: int)

  /** `Object.values(record)`, in key order. */
  function Values<V>(a: Assoc<V>): (r: seq<V>)
    ensures |r| == |a|
  {
    seq(|a|, i requires 0 <= i < |a| => a[i].1)
  }

  function PresentOf(t: Total): int {
    if t.Attendance? then t.present else 0
  }

  function HalfOf(t: Total): int {
    if t.Attendance? then t.half else 0
  }

  function AbsentOf(t: Total): int {
    if t.Attendance? then t.absent else 0
  }

  /**
   * `overallAttendanceTotal`: null when no total is of the attendance kind, otherwise
   * the componentwise sums over the attendance totals.
   */
  method OverallAttendanceTotal(totals: Assoc<Total>) returns (r: Option<Tally>)
    ensures r.None? <==> forall t :: t in Values(totals) ==> !t.Attendance?
    ensures r.Some? ==>
      r.value == Tally(Seqs.Sum(Values(totals), PresentOf), Seqs.Sum(Values(totals), HalfOf), Seqs.Sum(Values(totals), AbsentOf))
  {
    var vals := Values(totals);
    var present, half, absent := 0, 0, 0;
    var hasAttendance := false;
    for i := 0 to |vals|
      invariant present == Seqs.Sum(vals[..i], PresentOf)
      invariant half == Seqs.Sum(vals[..i], HalfOf)
      invariant absent == Seqs.Sum(vals[..i], AbsentOf)
      invariant hasAttendance <==> exists j :: 0 <= j < i && vals[j].Attendance?
    {
      var t := vals[i];
      TakeSnoc(vals, i);
      SumConcat(vals[..i], [t], PresentOf);
      SumConcat(vals[..i], [t], HalfOf);
      SumConcat(vals[..i], [t], AbsentOf);
      if t.Attendance? {
        present := present + t.present;
        half := half + t.half;
        absent := absent + t.absent;
        hasAttendance := true;
      }
    }
    TakeAll(vals);
    r := if hasAttendance then Some(Tally(present, half, absent)) else None;
  }

  // ---------------------------------------------------------------------------
  // CSV export

  /** `s.replace(/"/g, '""')`. */
  function Escape(s: string): string {
    if s == [] then []
    else (if s[0] == '"' then "\"\"" else [s[0]]) + Escape(s[1..])
  }

  /** A cell in double quotes, with inner quotes doubled. */
  function Quote(s: string): string {
    "\"" + Escape(s) + "\""
  }

  function QuoteAll(cells: seq<string>): (r: seq<string>)
    ensures |r| == |cells|
  {
    if cells == [] then [] else [Quote(cells[0])] + QuoteAll(cells[1..])
  }

  /** One CSV line: the quoted cells joined by commas. */
  function Line(cells: seq<string>): string {
    Join(QuoteAll(cells), ",")
  }

  /**
   * `row[header] ?? ''` written as text, with the attendance words replaced by their
   * codes: a code in the export stands for its word or for the code itself.
   */
  function ExportCell(v: Option<Value>): (r: string)
    ensures r == "P" <==> v == Some(Str("Present")) || v == Some(Str("P"))
    ensures r == "L" <==> v == Some(Str("Absent")) || v == Some(Str("L"))
    ensures r == "HD" <==> v == Some(Str("P(1/2)")) || v == Some(Str("HD"))
  {
    match v
    case None => ""
    case Some(Num(n)) => IntToStringShape(n); IntToString(n)
    case Some(Str(s)) =>
      if s == "Present" then "P"
      else if s == "Absent" then "L"
      else if s == "P(1/2)" then "HD"
      else s
  }

  function RowCells(row: Row, headers: seq<string>): (r: seq<string>)
    ensures |r| == |headers|
  {
    seq(|headers|, j requires 0 <= j < |headers| => ExportCell(Get(row, headers[j])))
  }

  function Blank(headers: seq<string>): (r: seq<string>)
    ensures |r| == |headers|
  {
    seq(|headers|, j requires 0 <= j < |headers| => "")
  }

  /** The text of one total. */
  function TotalCell(t: Option<Total>): string {
    match t
    case None => ""
    case Some(Attendance(p, a, h)) =>
      "P: " + NatToString(p) + " | L: " + NatToString(a) + " | HD: " + NatToString(h)
    case Some(Numeric(v, _)) => IntToString(v)
  }

  function TotalsCells(totals: Assoc<Total>, headers: seq<string>): (r: seq<string>)
    ensures |r| == |headers|
  {
    seq(|headers|, j requires 0 <= j < |headers| =>
      if j == 0 then "GRAND TOTALS" else TotalCell(Get(totals, headers[j])))
  }

  /** One line per row, in row order. */
  function DataLines(rows: seq<Row>, headers: seq<string>): (r: seq<string>)
    ensures |r| == |rows|
    ensures forall j :: 0 <= j < |rows| ==> r[j] == Line(RowCells(rows[j], headers))
  {
    if rows == [] then []
    else DataLines(rows[..|rows| - 1], headers) + [Line(RowCells(rows[|rows| - 1], headers))]
  }

  /** One pass of the `filteredData.forEach` body: the row's quoted cells as one more line. */
  method PushRow(csvRows: seq<string>, rows: seq<Row>, headers: seq<string>, i: nat) returns (csvRows': seq<string>)
    requires i < |rows| && csvRows == [Line(headers)] + DataLines(rows[..i], headers)
    ensures csvRows' == [Line(headers)] + DataLines(rows[..i + 1], headers)
  {
    assert rows[..i + 1][..i] == rows[..i];
    var values := RowCells(rows[i], headers);
    csvRows' := csvRows + [Line(values)];
  }

  /** The lines `exportToCSV` writes: none for no rows. */
  function ExportLines(rows: seq<Row>, headers: seq<string>, totals: Assoc<Total>): seq<string> {
    if rows == [] then []
    else [Line(headers)] + DataLines(rows, headers) + [Line(Blank(headers)), Line(TotalsCells(totals, headers))]
  }

  /** `exportToCSV` up to the download: pushes the header, the rows, a blank line and the totals. */
  method ExportToCsv(rows: seq<Row>, headers: seq<string>, totals: Assoc<Total>) returns (csvRows: seq<string>)
    ensures csvRows == ExportLines(rows, headers, totals)
  {
    if |rows| == 0 {
      return [];
    }
    csvRows := [Line(headers)];
    for i := 0 to |rows|
      invariant csvRows == [Line(headers)] + DataLines(rows[..i], headers)
    {
      csvRows := PushRow(csvRows, rows, headers, i);
    }
    TakeAll(rows);
    csvRows := csvRows + [Line(Blank(headers))];
    csvRows := csvRows + [Line(TotalsCells(totals, headers))];
  }

  /** No rows, no lines; otherwise the header, one line per row, a blank line and the totals. */
  lemma ExportShape(rows: seq<Row>, headers: seq<string>, totals: Assoc<Total>)
    ensures rows == [] ==> ExportLines(rows, headers, totals) == []
    ensures rows != [] ==> |ExportLines(rows, headers, totals)| == |rows| + 3
  {
  }

  /** Inside quotes, an escaped cell reads back as the cell up to its closing quote. */
  lemma {:induction false} EscapedRoundTrip(s: string, rest: string)
    requires rest == [] || rest[0] == ','
    ensures SheetApi.Fields(Escape(s) + "\"" + rest, true) == SheetApi.Combine(s, SheetApi.Fields(rest, false))
  {
    var after := SheetApi.Fields(rest, false);
    if s == [] {
      var u := "\"" + rest;
      assert Escape(s) + "\"" + rest == u;
      assert u[1..] == rest;
      assert SheetApi.Fields(u, true) == after;
      SheetApi.CombineEmpty(after);
    } else {
      EscapedRoundTrip(s[1..], rest);
      if s[0] == '"' {
        EscapedQuote(s, rest);
        SheetApi.CombineCombine("\"", s[1..], after);
        assert "\"" + s[1..] == s;
      } else {
        EscapedChar(s, rest);
        SheetApi.CombineCombine([s[0]], s[1..], after);
        assert [s[0]] + s[1..] == s;
      }
    }
  }

  /** A doubled quote inside quotes reads as one literal quote. */
  lemma EscapedQuote(s: string, rest: string)
    requires s != [] && s[0] == '"'
    ensures SheetApi.Fields(Escape(s) + "\"" + rest, true) ==
      SheetApi.Combine("\"", SheetApi.Fields(Escape(s[1..]) + "\"" + rest, true))
  {
    var tail := Escape(s[1..]) + "\"" + rest;
    assert Escape(s) + "\"" + rest == "\"\"" + tail;
    assert ("\"\"" + tail)[2..] == tail;
  }

  /** Any other character inside quotes, a comma included, is part of the field. */
  lemma EscapedChar(s: string, rest: string)
    requires s != [] && s[0] != '"'
    ensures SheetApi.Fields(Escape(s) + "\"" + rest, true) ==
      SheetApi.Combine([s[0]], SheetApi.Fields(Escape(s[1..]) + "\"" + rest, true))
  {
    var tail := Escape(s[1..]) + "\"" + rest;
    assert Escape(s) + "\"" + rest == [s[0]] + tail;
    assert ([s[0]] + tail)[1..] == tail;
  }

  /** A quoted cell followed by a comma or the end of line reads back as the cell. */
  lemma QuotedRoundTrip(s: string, rest: string)
    requires rest == [] || rest[0] == ','
    ensures SheetApi.Fields(Quote(s) + rest, false) == SheetApi.Combine(s, SheetApi.Fields(rest, false))
  {
    EscapedRoundTrip(s, rest);
    assert Quote(s) + rest == "\"" + (Escape(s) + "\"" + rest);
    assert ("\"" + (Escape(s) + "\"" + rest))[1..] == Escape(s) + "\"" + rest;
  }

  /** The project's own CSV field reader gives back the cells of any exported line. */
  lemma {:induction false} LineRoundTrip(cells: seq<string>)
    requires |cells| >= 1
    ensures SheetApi.Fields(Line(cells), false) == cells
  {
    if |cells| == 1 {
      assert Line(cells) == Quote(cells[0]) + [];
      QuotedRoundTrip(cells[0], []);
      SheetApi.CombineEnd(cells[0], []);
    } else {
      var rest := Line(cells[1..]);
      assert QuoteAll(cells)[1..] == QuoteAll(cells[1..]);
      assert Line(cells) == Quote(cells[0]) + ("," + rest);
      LineRoundTrip(cells[1..]);
      QuotedRoundTrip(cells[0], "," + rest);
      assert ("," + rest)[1..] == rest;
      SheetApi.CombineEnd(cells[0], SheetApi.Fields(rest, false));
      assert [cells[0]] + cells[1..] == cells;
    }
  }

  /**
   * Every exported line reads back, field by field, as the header, the row's
   * cells, blanks, and the totals row whose first cell is `GRAND TOTALS`.
   */
  lemma ExportRoundTrip(rows: seq<Row>, headers: seq<string>, totals: Assoc<Total>)
    requires rows != [] && |headers| >= 1
    ensures SheetApi.Fields(ExportLines(rows, headers, totals)[0], false) == headers
    ensures forall j :: 0 <= j < |rows| ==>
      SheetApi.Fields(ExportLines(rows, headers, totals)[j + 1], false) == RowCells(rows[j], headers)
    ensures SheetApi.Fields(ExportLines(rows, headers, totals)[|rows| + 1], false) == Blank(headers)
    ensures SheetApi.Fields(ExportLines(rows, headers, totals)[|rows| + 2], false) == TotalsCells(totals, headers)
    ensures TotalsCells(totals, headers)[0] == "GRAND TOTALS"
  {
    var lines := ExportLines(rows, headers, totals);
    LineRoundTrip(headers);
    LineRoundTrip(Blank(headers));
    LineRoundTrip(TotalsCells(totals, headers));
    forall j | 0 <= j < |rows|
      ensures SheetApi.Fields(lines[j + 1], false) == RowCells(rows[j], headers)
    {
      assert lines[j + 1] == Line(RowCells(rows[j], headers));
      LineRoundTrip(RowCells(rows[j], headers));
    }
  }
}
