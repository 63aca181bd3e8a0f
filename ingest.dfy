/**
 * How the dashboard turns its configuration into rows: date cells are brought into one
 * layout, tab names are dated for ordering, the tabs of the selected projects are
 * listed, the selected tabs' rows are merged with their provenance, and the project
 * list and the selections are updated.
 */
module Ingest {
  import opened Wrappers
  import opened Text
  import opened Seqs
  import opened Rows
  import opened Types
  import SheetApi

  // ---------------------------------------------------------------------------
  // Date cells

  /** A date as `new Date(s)` reads it: full year, month 1-12, day of the month. */
  datatype CalDate = CalDate(year: int, month: nat, day: nat)

  /** `${getFullYear()}/${month padded}/${day padded}`. */
  function FormatDate(d: CalDate): string {
    IntToString(d.year) + "/" + Pad2(d.month) + "/" + Pad2(d.day)
  }

  /** The cell texts that stand for "no date": blank, any-case `nil`, `-`, any-case `undefined`. */
  predicate IsDateSentinel(s: string) {
    s == "" || ToUpper(s) == "NIL" || s == "-" || ToLower(s) == "undefined"
  }

  /**
   * `normalizeDateValue`: a missing cell or a sentinel gives `""`; text the date parser
   * `parse` accepts is rewritten as `YYYY/MM/DD`; anything else is kept, trimmed.
   */
  function NormalizeDateValue(val: Option<string>, parse: string -> Option<CalDate>): (r: string)
    ensures val.None? ==> r == ""
    ensures val.Some? && IsDateSentinel(Trim(val.value)) ==> r == ""
    ensures val.Some? && !IsDateSentinel(Trim(val.value)) && parse(Trim(val.value)).None? ==>
      r == Trim(val.value)
    ensures val.Some? && !IsDateSentinel(Trim(val.value)) && parse(Trim(val.value)).Some? ==>
      r == FormatDate(parse(Trim(val.value)).value)
  {
    if val.None? then ""
    else
      var s := Trim(val.value);
      if IsDateSentinel(s) then ""
      else
        match parse(s)
        case Some(d) => FormatDate(d)
        case None => s
  }

  /** A rewritten date reads back, piece by piece, as the year, month and day it came from. */
  lemma FormatDateRoundTrip(d: CalDate)
    requires d.year >= 0
    ensures var parts := Split(FormatDate(d), '/');
      |parts| == 3 &&
      AllDigits(parts[0]) && DigitsValue(parts[0]) == d.year &&
      AllDigits(parts[1]) && DigitsValue(parts[1]) == d.month &&
      AllDigits(parts[2]) && DigitsValue(parts[2]) == d.day
  {
    var y, m, dd := NatToString(d.year), Pad2(d.month), Pad2(d.day);
    NatToStringRoundTrip(d.year);
    assert '/' !in y && '/' !in m && '/' !in dd by {
      assert forall c :: c in y ==> IsDigit(c);
      assert forall c :: c in m ==> IsDigit(c);
      assert forall c :: c in dd ==> IsDigit(c);
    }
    assert FormatDate(d) == y + ['/'] + (m + ['/'] + dd);
    SplitAfter(y, '/', m + ['/'] + dd);
    SplitAfter(m, '/', dd);
    SplitNone(dd, '/');
  }

  /** A rewritten date is never mistaken for a sentinel and has no white space at its ends. */
  lemma FormatDateShape(d: CalDate)
    ensures !IsDateSentinel(FormatDate(d)) && Trim(FormatDate(d)) == FormatDate(d)
  {
    var f := FormatDate(d);
    var y := IntToString(d.year);
    var m := Pad2(d.month);
    assert f == y + "/" + m + "/" + Pad2(d.day);
    assert f[|y|] == '/';
    assert f[|f| - 1] == Pad2(d.day)[|Pad2(d.day)| - 1];
    assert IsDigit(f[|f| - 1]);
    assert |f| > |y| + 1 + 2;
    assert ToLower(f)[|y|] == '/';
    assert !IsSpace(f[0]) by {
      if d.year < 0 {
        assert f[0] == '-';
      } else {
        assert f[0] == y[0];
        assert IsDigit(y[0]);
      }
    }
    TrimUnpadded(f);
  }

  /**
   * Normalizing is idempotent when every date the parser produces, once formatted,
   * parses back as that same date: sentinels and unparsed text are fixed points, and
   * so is a rewritten date. Dates the parser never produces (month 13, day 0) may be
   * rejected.
   */
  lemma NormalizeDateIdempotent(val: Option<string>, parse: string -> Option<CalDate>)
    requires forall s :: parse(s).Some? ==> parse(FormatDate(parse(s).value)) == parse(s)
    ensures NormalizeDateValue(Some(NormalizeDateValue(val, parse)), parse) == NormalizeDateValue(val, parse)
  {
    var r := NormalizeDateValue(val, parse);
    if val.Some? {
      var s := Trim(val.value);
      TrimIdempotent(val.value);
      if !IsDateSentinel(s) && parse(s).Some? {
        FormatDateShape(parse(s).value);
      }
    }
  }

  // ---------------------------------------------------------------------------
  // Sheet-name dates

  predicate IsUpperLetter(c: char) {
    'A' <= c <= 'Z'
  }

  /** Number of leading `\s` characters of `s`. */
  function SpaceRun(s: string): (n: nat)
    ensures n <= |s|
    ensures forall i :: 0 <= i < n ==> IsSpace(s[i])
    ensures n < |s| ==> !IsSpace(s[n])
  {
    if s != [] && IsSpace(s[0]) then SpaceRun(s[1..]) + 1 else 0
  }

  /**
   * The pattern `(\d+)(?:ST|ND|RD|TH)?\s+([A-Z]{3})` tried at position `i` of `u`: the
   * day it captures and the three letters after the white space.
   */
  function DateAt(u: string, i: nat): Option<(nat, string)>
    requires i <= |u|
  {
    var d := DigitRun(u[i..]);
    if d == 0 then None
    else
      var j := i + d;
      var j' := if j + 2 <= |u| && u[j..j + 2] in ["ST", "ND", "RD", "TH"] then j + 2 else j;
      var w := SpaceRun(u[j'..]);
      var k := j' + w;
      if w > 0 && k + 3 <= |u| && IsUpperLetter(u[k]) && IsUpperLetter(u[k + 1]) && IsUpperLetter(u[k + 2])
      then
        assert u[i..j] == u[i..][..d];
        Some((DigitsValue(u[i..j]), u[k..k + 3]))
      else None
  }

  /** The leftmost match of the sheet-date pattern at or after `from`. */
  function FindDate(u: string, from: nat): (r: Option<(nat, string)>)
    requires from <= |u|
    ensures r.None? ==> forall i :: from <= i <= |u| ==> DateAt(u, i).None?
    ensures r.Some? ==> exists i ::
      && from <= i <= |u| && DateAt(u, i) == r
      && (forall j :: from <= j < i ==> DateAt(u, j).None?)
    decreases |u| - from
  {
    if DateAt(u, from).Some? then DateAt(u, from)
    else if from == |u| then None
    else FindDate(u, from + 1)
  }

  const MonthNames: seq<string> :=
    ["JAN", "FEB", "MAR", "APR", "MAY", "JUN", "JUL", "AUG", "SEP", "OCT", "NOV", "DEC"]

  /** Days of 2025 before the first of each month. */
  const MonthStart: seq<nat> := [0, 31, 59, 90, 120, 151, 181, 212, 243, 273, 304, 334, 365]

  /** `months[m] ?? 0`. */
  function MonthIndex(m: string): (r: nat)
    ensures r < 12
    ensures m in MonthNames ==> MonthNames[r] == m
    ensures m !in MonthNames ==> r == 0
  {
    if m in MonthNames then
      var i :| 0 <= i < 12 && MonthNames[i] == m;
      i
    else 0
  }

  /** Days from 1970-01-01 to 2025-01-01. */
  const Days2025: nat := 20089

  /**
   * `new Date(2025, month, day)`, counted in days since 1970-01-01; a day beyond the end
   * of the month rolls over into the following months.
   */
  function DayNumber(month: nat, day: nat): int
    requires month < 12
  {
    Days2025 + MonthStart[month] + day - 1
  }

  /**
   * `parseSheetDate`: the date a tab name carries, as a day number (order-equivalent to
   * `getTime`), or 0 when the name has no date.
   */
  function SheetDateKey(name: string): (r: int)
    ensures r == 0 <==> FindDate(ToUpper(name), 0).None?
  {
    match FindDate(ToUpper(name), 0)
    case None => 0
    case Some((day, m)) => DayNumber(MonthIndex(m), day)
  }

  /** Within its month, a valid day of an earlier month dates before any day of a later month. */
  lemma MonthOrder(m1: nat, d1: nat, m2: nat, d2: nat)
    requires m1 < m2 < 12 && d1 <= MonthStart[m1 + 1] - MonthStart[m1] && d2 >= 1
    ensures DayNumber(m1, d1) < DayNumber(m2, d2)
  {
    MonthStartGrows(m1 + 1, m2);
  }

  lemma {:induction false} MonthStartGrows(i: nat, j: nat)
    requires i <= j < |MonthStart|
    ensures MonthStart[i] <= MonthStart[j]
    decreases j - i
  {
    if i < j {
      MonthStartGrows(i + 1, j);
      assert MonthStart[i] < MonthStart[i + 1];
    }
  }

  /** Tab dates do not depend on letter case. */
  lemma SheetDateIgnoresCase(name: string)
    ensures SheetDateKey(ToLower(name)) == SheetDateKey(name)
  {
    assert ToUpper(ToLower(name)) == ToUpper(name);
  }

  // ---------------------------------------------------------------------------
  // Tabs of the selected projects

  /** `projects.find(p => p.id === id)`. */
  function FindProject(projects: seq<Project>, id: string): (r: Option<Project>)
    ensures r.Some? ==> r.value in projects && r.value.id == id
    ensures r.None? <==> forall p :: p in projects ==> p.id != id
  {
    if projects == [] then None
    else if projects[0].id == id then Some(projects[0])
    else
      assert forall p :: p in projects <==> p == projects[0] || p in projects[1..];
      FindProject(projects[1..], id)
  }

  predicate NonEmptyText(s: string) {
    s != ""
  }

  /** `customSheets.split(',').map(s => s.trim()).filter(s => !!s)`. */
  function CustomSheetNames(custom: Option<string>): (r: seq<string>)
    ensures forall n :: n in r ==> n != "" && Trim(n) == n
  {
    match custom
    case None => []
    case Some(text) =>
      var names := SheetApi.TrimAll(Split(text, ','));
      assert forall n :: n in names ==> Trim(n) == n by {
        forall n | n in names ensures Trim(n) == n {
          var i :| 0 <= i < |names| && names[i] == n;
          TrimIdempotent(Split(text, ',')[i]);
        }
      }
      Filter(names, NonEmptyText)
  }

  /** An entry of the tab list: `{ id: pid + "|" + name, label: name, projectId, sheetName }`; the `label` field is `labelText` here. */
  datatype SheetRef = SheetRef(id: string, labelText: string, projectId: string, sheetName: string)

  function SheetId(pid: string, name: string): string {
    pid + "|" + name
  }

  /** The refs of one project's tab names, in order. */
  function RefsOf(pid: string, names: seq<string>): (r: seq<SheetRef>)
    ensures |r| == |names|
    ensures forall i :: 0 <= i < |names| ==> r[i] == SheetRef(SheetId(pid, names[i]), names[i], pid, names[i])
  {
    seq(|names|, i requires 0 <= i < |names| => SheetRef(SheetId(pid, names[i]), names[i], pid, names[i]))
  }

  /**
   * The tab names one project offers: its custom names first, then the discovered names
   * it lacks, each once.
   */
  function ProjectSheetNames(p: Project, page: SheetApi.SheetPage): (r: seq<string>)
    ensures NoDup(r)
    ensures forall n :: n in r <==> n in CustomSheetNames(p.customSheets) || n in SheetApi.Discovered(page, p.category)
  {
    Dedup(CustomSheetNames(p.customSheets) + SheetApi.Discovered(page, p.category))
  }

  /** The refs one selected project id contributes; none for an unknown id. */
  function ProjectTabs(projects: seq<Project>, pid: string, pages: string -> SheetApi.SheetPage): seq<SheetRef> {
    match FindProject(projects, pid)
    case None => []
    case Some(p) => RefsOf(pid, ProjectSheetNames(p, pages(p.spreadsheetId)))
  }

  /** `pid => ProjectTabs(projects, pid, pages)`. */
  function TabsFn(projects: seq<Project>, pages: string -> SheetApi.SheetPage): string -> seq<SheetRef> {
    pid => ProjectTabs(projects, pid, pages)
  }

  /** The tab list for the selected project ids; `pages` is what each spreadsheet's page yields. */
  function AvailableSheets(projects: seq<Project>, pids: seq<string>, pages: string -> SheetApi.SheetPage): seq<SheetRef> {
    FlatMap(pids, TabsFn(projects, pages))
  }

  lemma AvailableSheetsStep(projects: seq<Project>, pids: seq<string>, i: nat, pages: string -> SheetApi.SheetPage)
    requires i < |pids|
    ensures AvailableSheets(projects, pids[..i + 1], pages)
         == AvailableSheets(projects, pids[..i], pages) + ProjectTabs(projects, pids[i], pages)
  {
    assert pids[..i + 1] == pids[..i] + [pids[i]];
    FlatMapSnoc(pids[..i], pids[i], TabsFn(projects, pages));
  }

  /** The `names` of one project: its custom names, then the discovered ones it lacks. */
  method CollectNames(p: Project, page: SheetApi.SheetPage) returns (names: seq<string>)
    ensures names == ProjectSheetNames(p, page)
  {
    var custom := CustomSheetNames(p.customSheets);
    names := AddAll([], [], custom);
    var discovered := SheetApi.FetchSheetList(page, p.category);
    assert [] + custom == custom;
    names := AddAll(names, custom, discovered);
  }

  /** The `names.forEach(... allSheets.push(...))` loop. */
  method PushRefs(all: seq<SheetRef>, pid: string, names: seq<string>) returns (all': seq<SheetRef>)
    ensures all' == all + RefsOf(pid, names)
  {
    all' := all;
    var j := 0;
    while j < |names|
      invariant 0 <= j <= |names|
      invariant all' == all + RefsOf(pid, names[..j])
    {
      assert RefsOf(pid, names[..j + 1]) == RefsOf(pid, names[..j]) + [SheetRef(SheetId(pid, names[j]), names[j], pid, names[j])];
      all' := all' + [SheetRef(SheetId(pid, names[j]), names[j], pid, names[j])];
      j := j + 1;
    }
    assert names[..j] == names;
  }

  /** `loadSheets`, with the projects taken one after the other. */
  method LoadSheets(projects: seq<Project>, pids: seq<string>, pages: string -> SheetApi.SheetPage)
    returns (all: seq<SheetRef>)
    ensures all == AvailableSheets(projects, pids, pages)
  {
    all := [];
    var i := 0;
    while i < |pids|
      invariant 0 <= i <= |pids|
      invariant all == AvailableSheets(projects, pids[..i], pages)
    {
      AvailableSheetsStep(projects, pids, i, pages);
      var project := FindProject(projects, pids[i]);
      if project.Some? {
        var p := project.value;
        var names := CollectNames(p, pages(p.spreadsheetId));
        all := PushRefs(all, pids[i], names);
      }
      i := i + 1;
    }
    assert pids[..i] == pids;
  }

  /** Every ref of the list belongs to a selected project and is named `pid|name`. */
  lemma {:induction false} AvailableSheetsShape(projects: seq<Project>, pids: seq<string>, pages: string -> SheetApi.SheetPage)
    ensures forall r :: r in AvailableSheets(projects, pids, pages) ==>
      r.projectId in pids && r.id == SheetId(r.projectId, r.sheetName) && r.labelText == r.sheetName
  {
    if pids != [] {
      AvailableSheetsShape(projects, pids[..|pids| - 1], pages);
      AvailableSheetsStep(projects, pids, |pids| - 1, pages);
      assert pids[..|pids|] == pids;
    }
  }

  /** A selected project offers exactly its custom names and its discovered names. */
  lemma {:induction false} AvailableSheetsOfProject(projects: seq<Project>, pids: seq<string>, pages: string -> SheetApi.SheetPage, p: Project, name: string)
    requires FindProject(projects, p.id) == Some(p) && p.id in pids
    ensures SheetRef(SheetId(p.id, name), name, p.id, name) in AvailableSheets(projects, pids, pages) <==>
      name in CustomSheetNames(p.customSheets) || name in SheetApi.Discovered(pages(p.spreadsheetId), p.category)
  {
    var init, pid := pids[..|pids| - 1], pids[|pids| - 1];
    var ref := SheetRef(SheetId(p.id, name), name, p.id, name);
    var names := ProjectSheetNames(p, pages(p.spreadsheetId));
    var tail := ProjectTabs(projects, pid, pages);
    AvailableSheetsStep(projects, pids, |pids| - 1, pages);
    assert pids[..|pids|] == pids;
    if pid == p.id {
      assert ref in tail <==> name in names by {
        if name in names {
          var i :| 0 <= i < |names| && names[i] == name;
          assert tail[i] == ref;
        }
      }
      if p.id in init {
        AvailableSheetsOfProject(projects, init, pages, p, name);
      } else {
        AvailableSheetsShape(projects, init, pages);
      }
    } else {
      assert ref !in tail;
      AvailableSheetsOfProject(projects, init, pages, p, name);
    }
  }

  // ---------------------------------------------------------------------------
  // Merging the selected tabs

  /** `const [pid, sname] = id.split('|')`; `sname` is absent when there is no `|`. */
  function SplitSheetId(id: string): (string, Option<string>) {
    var parts := Split(id, '|');
    (parts[0], if |parts| > 1 then Some(parts[1]) else None)
  }

  /** A project id and a tab name without `|` come back out of their sheet id. */
  lemma SheetIdRoundTrip(pid: string, name: string)
    requires '|' !in pid && '|' !in name
    ensures SplitSheetId(SheetId(pid, name)) == (pid, Some(name))
  {
    SplitAfter(pid, '|', name);
    SplitNone(name, '|');
    assert SheetId(pid, name) == pid + ['|'] + name;
  }

  /** Header names containing `date` in any case. */
  predicate IsDateHeader(h: string) {
    Contains(ToLower(h), "date")
  }

  /** What `processed[h]` becomes for header `h` of `row`. */
  function ProcessedCell(row: Assoc<string>, h: string, parse: string -> Option<CalDate>): string {
    if IsDateHeader(h) then NormalizeDateValue(Get(row, h), parse) else Get(row, h).GetOr("")
  }

  function ProcessedCells(row: Assoc<string>, headers: seq<string>, parse: string -> Option<CalDate>): (r: seq<string>)
    ensures |r| == |headers| && forall j :: 0 <= j < |headers| ==> r[j] == ProcessedCell(row, headers[j], parse)
  {
    seq(|headers|, j requires 0 <= j < |headers| => ProcessedCell(row, headers[j], parse))
  }

  /** The row with its provenance keys set. */
  function Stamp(processed: Assoc<string>, p: Project, sname: Option<string>): Assoc<string> {
    Put(Put(Put(processed, "__projectSource", p.name), "__projectCategory", CategoryName(p.category)),
      "__sheetSource", sname.GetOr(""))
  }

  /** One merged row: every header assigned in order, date headers normalized, then stamped. */
  function MergedRow(row: Assoc<string>, headers: seq<string>, p: Project, sname: Option<string>,
                     parse: string -> Option<CalDate>): Assoc<string> {
    Stamp(SheetApi.RowPrefix(headers, ProcessedCells(row, headers, parse), |headers|), p, sname)
  }

  /** The parsed rows of a tab, or none when the fetch fails. */
  function SheetData(csv: Option<string>): seq<Assoc<string>> {
    match csv
    case None => []
    case Some(text) => SheetApi.CsvRows(text)
  }

  /** The merged rows of a tab's parsed rows, in order. */
  function RowsOf(data: seq<Assoc<string>>, headers: seq<string>, p: Project, sname: Option<string>,
                  parse: string -> Option<CalDate>): (r: seq<Assoc<string>>)
    ensures |r| == |data|
  {
    if data == [] then []
    else RowsOf(data[..|data| - 1], headers, p, sname, parse) + [MergedRow(data[|data| - 1], headers, p, sname, parse)]
  }

  /** The rows of tab `sname` of project `p`; `fetch` gives a tab's CSV text, if it can be fetched. */
  function ProjectRows(p: Project, sname: Option<string>, fetch: (string, string) -> Option<string>,
                       parse: string -> Option<CalDate>): seq<Assoc<string>> {
    var data := SheetData(fetch(p.spreadsheetId, sname.GetOr("undefined")));
    RowsOf(data, if |data| > 0 then Keys(data[0]) else [], p, sname, parse)
  }

  /** The rows one selected sheet id contributes. */
  function SheetRows(projects: seq<Project>, id: string, fetch: (string, string) -> Option<string>,
                     parse: string -> Option<CalDate>): seq<Assoc<string>> {
    match FindProject(projects, SplitSheetId(id).0)
    case None => []
    case Some(p) => ProjectRows(p, SplitSheetId(id).1, fetch, parse)
  }

  /** `id => SheetRows(projects, id, fetch, parse)`. */
  function RowsFn(projects: seq<Project>, fetch: (string, string) -> Option<string>,
                  parse: string -> Option<CalDate>): string -> seq<Assoc<string>> {
    id => SheetRows(projects, id, fetch, parse)
  }

  /** The merged rows of the selected sheet ids, in selection order. */
  function Merged(projects: seq<Project>, ids: seq<string>, fetch: (string, string) -> Option<string>,
                  parse: string -> Option<CalDate>): seq<Assoc<string>> {
    FlatMap(ids, RowsFn(projects, fetch, parse))
  }

  lemma FillStep(row: Assoc<string>, headers: seq<string>, parse: string -> Option<CalDate>, j: nat)
    requires j < |headers|
    ensures SheetApi.RowPrefix(headers, ProcessedCells(row, headers, parse), j + 1)
         == Put(SheetApi.RowPrefix(headers, ProcessedCells(row, headers, parse), j), headers[j], ProcessedCell(row, headers[j], parse))
  {
  }

  /** The `headers.forEach` loop that fills `processed`. */
  method FillProcessed(row: Assoc<string>, headers: seq<string>, parse: string -> Option<CalDate>)
    returns (processed: Assoc<string>)
    ensures processed == SheetApi.RowPrefix(headers, ProcessedCells(row, headers, parse), |headers|)
  {
    ghost var cells := ProcessedCells(row, headers, parse);
    processed := [];
    var j := 0;
    while j < |headers|
      invariant 0 <= j <= |headers|
      invariant processed == SheetApi.RowPrefix(headers, cells, j)
    {
      FillStep(row, headers, parse, j);
      var h := headers[j];
      var cell := ProcessedCell(row, h, parse);
      processed := Put(processed, h, cell);
      j := j + 1;
    }
  }

  /** One row of `mergeData`: the processed copy, then the provenance spread. */
  method ProcessRow(row: Assoc<string>, headers: seq<string>, p: Project, sname: Option<string>,
                    parse: string -> Option<CalDate>) returns (out: Assoc<string>)
    ensures out == MergedRow(row, headers, p, sname, parse)
  {
    var processed := FillProcessed(row, headers, parse);
    out := Stamp(processed, p, sname);
  }

  lemma RowsOfStep(data: seq<Assoc<string>>, i: nat, headers: seq<string>, p: Project, sname: Option<string>,
                   parse: string -> Option<CalDate>)
    requires i < |data|
    ensures RowsOf(data[..i + 1], headers, p, sname, parse)
         == RowsOf(data[..i], headers, p, sname, parse) + [MergedRow(data[i], headers, p, sname, parse)]
  {
    assert data[..i + 1][..i] == data[..i];
  }

  /** The `sheetData.map(...)` of one tab: every parsed row merged, in order. */
  method ProcessRows(data: seq<Assoc<string>>, headers: seq<string>, p: Project, sname: Option<string>,
                     parse: string -> Option<CalDate>) returns (res: seq<Assoc<string>>)
    ensures res == RowsOf(data, headers, p, sname, parse)
  {
    res := [];
    var i := 0;
    while i < |data|
      invariant 0 <= i <= |data|
      invariant res == RowsOf(data[..i], headers, p, sname, parse)
    {
      RowsOfStep(data, i, headers, p, sname, parse);
      var out := ProcessRow(data[i], headers, p, sname, parse);
      res := res + [out];
      i := i + 1;
    }
    assert data[..i] == data;
  }

  /** The rows of one selected id: find its project, fetch its tab, merge the rows. */
  method FetchSheetRows(projects: seq<Project>, id: string, fetch: (string, string) -> Option<string>,
                        parse: string -> Option<CalDate>) returns (res: seq<Assoc<string>>)
    ensures res == SheetRows(projects, id, fetch, parse)
  {
    var (pid, sname) := SplitSheetId(id);
    var project := FindProject(projects, pid);
    res := [];
    if project.Some? {
      var p := project.value;
      var data := SheetData(fetch(p.spreadsheetId, sname.GetOr("undefined")));
      var headers := if |data| > 0 then Keys(data[0]) else [];
      res := ProcessRows(data, headers, p, sname, parse);
    }
  }

  lemma MergedStep(projects: seq<Project>, ids: seq<string>, k: nat, fetch: (string, string) -> Option<string>,
                   parse: string -> Option<CalDate>)
    requires k < |ids|
    ensures Merged(projects, ids[..k + 1], fetch, parse)
         == Merged(projects, ids[..k], fetch, parse) + SheetRows(projects, ids[k], fetch, parse)
  {
    assert ids[..k + 1] == ids[..k] + [ids[k]];
    FlatMapSnoc(ids[..k], ids[k], RowsFn(projects, fetch, parse));
  }

  /** `mergeData`: each selected id's rows, appended in selection order. */
  method MergeData(projects: seq<Project>, ids: seq<string>, fetch: (string, string) -> Option<string>,
                   parse: string -> Option<CalDate>) returns (merged: seq<Assoc<string>>)
    ensures merged == Merged(projects, ids, fetch, parse)
  {
    merged := [];
    var k := 0;
    while k < |ids|
      invariant 0 <= k <= |ids|
      invariant merged == Merged(projects, ids[..k], fetch, parse)
    {
      MergedStep(projects, ids, k, fetch, parse);
      var res := FetchSheetRows(projects, ids[k], fetch, parse);
      merged := merged + res;
      k := k + 1;
    }
    assert ids[..k] == ids;
  }

  /** Merging a longer selection appends the rows of the added ids. */
  lemma MergedConcat(projects: seq<Project>, a: seq<string>, b: seq<string>,
                                        fetch: (string, string) -> Option<string>, parse: string -> Option<CalDate>)
    ensures Merged(projects, a + b, fetch, parse) == Merged(projects, a, fetch, parse) + Merged(projects, b, fetch, parse)
  {
    FlatMapConcat(a, b, RowsFn(projects, fetch, parse));
  }

  /** A sheet id whose project is unknown contributes no rows. */
  lemma UnknownProjectNoRows(projects: seq<Project>, id: string, fetch: (string, string) -> Option<string>,
                             parse: string -> Option<CalDate>)
    requires forall p :: p in projects ==> p.id != SplitSheetId(id).0
    ensures SheetRows(projects, id, fetch, parse) == []
  {
  }

  /** Every merged row carries the project name, the category and the tab it came from. */
  lemma StampedProvenance(processed: Assoc<string>, p: Project, sname: Option<string>)
    ensures Get(Stamp(processed, p, sname), "__projectSource") == Some(p.name)
    ensures Get(Stamp(processed, p, sname), "__projectCategory") == Some(CategoryName(p.category))
    ensures Get(Stamp(processed, p, sname), "__sheetSource") == Some(sname.GetOr(""))
  {
    var a := Put(processed, "__projectSource", p.name);
    var b := Put(a, "__projectCategory", CategoryName(p.category));
    PutGet(processed, "__projectSource", p.name, "__projectSource");
    PutGet(a, "__projectCategory", CategoryName(p.category), "__projectSource");
    PutGet(b, "__sheetSource", sname.GetOr(""), "__projectSource");
    PutGet(a, "__projectCategory", CategoryName(p.category), "__projectCategory");
    PutGet(b, "__sheetSource", sname.GetOr(""), "__projectCategory");
    PutGet(b, "__sheetSource", sname.GetOr(""), "__sheetSource");
  }

  /**
   * Under distinct headers, a header whose name lacks `date` keeps its cell and a date
   * header gets its cell normalized.
   */
  lemma ProcessedCellOf(row: Assoc<string>, headers: seq<string>, parse: string -> Option<CalDate>, i: nat)
    requires NoDup(headers) && i < |headers|
    ensures var processed := SheetApi.RowPrefix(headers, ProcessedCells(row, headers, parse), |headers|);
      Get(processed, headers[i]) ==
        Some(if IsDateHeader(headers[i]) then NormalizeDateValue(Get(row, headers[i]), parse)
             else Get(row, headers[i]).GetOr(""))
  {
    SheetApi.RowCell(headers, ProcessedCells(row, headers, parse), |headers|, i);
  }

  /** All rows parsed from one CSV text have the same keys, so every header is present. */
  lemma ParsedRowsShareKeys(text: string, i: nat, h: string)
    requires i < |SheetApi.CsvRows(text)|
    ensures h in Keys(SheetApi.CsvRows(text)[i]) <==> h in Keys(SheetApi.CsvRows(text)[0])
  {
    var lines := SheetApi.Records(text);
    var headers := SheetApi.TrimAll(SheetApi.Fields(lines[0], false));
    SheetApi.DataRowsAt(headers, lines[1..], i);
    SheetApi.DataRowsAt(headers, lines[1..], 0);
    var c0 := SheetApi.Cells(SheetApi.Fields(lines[1..][0], false), |headers|);
    var ci := SheetApi.Cells(SheetApi.Fields(lines[1..][i], false), |headers|);
    SheetApi.RowKeySet(headers, c0, |headers|);
    SheetApi.RowKeySet(headers, ci, |headers|);
  }

  // ---------------------------------------------------------------------------
  // Project list and selections

  /** The dashboard state the list operations touch. */
  datatype Dashboard = Dashboard(
    projects: seq<Project>,
    prodIds: seq<string>,
    hourlyIds: seq<string>,
    sheetIds: seq<string>)

  /** `updateProject`: the entries with the same id are replaced by `u`. */
  function UpdateProject(projects: seq<Project>, u: Project): (r: seq<Project>)
    ensures |r| == |projects|
  {
    seq(|projects|, i requires 0 <= i < |projects| => if projects[i].id == u.id then u else projects[i])
  }

  /** After an update, `u`'s id finds `u` and every other id finds what it found before. */
  lemma {:induction false} UpdateProjectFind(projects: seq<Project>, u: Project, id: string)
    ensures FindProject(UpdateProject(projects, u), id) ==
      if id == u.id && FindProject(projects, id).Some? then Some(u) else FindProject(projects, id)
  {
    if projects != [] {
      UpdateProjectFind(projects[1..], u, id);
      assert UpdateProject(projects, u)[1..] == UpdateProject(projects[1..], u);
    }
  }

  predicate OwnsSheet(id: string, sheetId: string) {
    StartsWith(sheetId, id + "|")
  }

  function WithoutProject(projects: seq<Project>, id: string): (r: seq<Project>)
    ensures forall p :: p in r <==> p in projects && p.id != id
    ensures Subsequence(r, projects)
  {
    if projects == [] then []
    else
      var init, last := projects[..|projects| - 1], projects[|projects| - 1];
      var r := WithoutProject(init, id);
      assert forall p :: p in projects <==> p in init || p == last;
      if last.id == id then
        assert r != [] ==> r[|r| - 1] in r;
        r
      else
        assert (r + [last])[..|r|] == r;
        r + [last]
  }

  function WithoutOwned(sheetIds: seq<string>, id: string): (r: seq<string>)
    ensures forall s :: s in r <==> s in sheetIds && !OwnsSheet(id, s)
    ensures Subsequence(r, sheetIds)
  {
    if sheetIds == [] then []
    else
      var init, last := sheetIds[..|sheetIds| - 1], sheetIds[|sheetIds| - 1];
      var r := WithoutOwned(init, id);
      assert forall s :: s in sheetIds <==> s in init || s == last;
      if OwnsSheet(id, last) then
        assert r != [] ==> r[|r| - 1] in r;
        r
      else
        assert (r + [last])[..|r|] == r;
        r + [last]
  }

  /**
   * `deleteProject`: the project goes, its id leaves both selections, and so does every
   * selected sheet id starting with `id|`.
   */
  function DeleteProject(s: Dashboard, id: string): Dashboard {
    Dashboard(WithoutProject(s.projects, id), Without(s.prodIds, [id]), Without(s.hourlyIds, [id]),
      WithoutOwned(s.sheetIds, id))
  }

  /** Deletion removes exactly what belongs to the id and keeps everything else in order. */
  lemma DeleteProjectFacts(s: Dashboard, id: string)
    ensures FindProject(DeleteProject(s, id).projects, id).None?
    ensures forall p :: p in s.projects && p.id != id ==> p in DeleteProject(s, id).projects
    ensures forall x :: x in DeleteProject(s, id).prodIds <==> x in s.prodIds && x != id
    ensures forall x :: x in DeleteProject(s, id).hourlyIds <==> x in s.hourlyIds && x != id
    ensures Subsequence(DeleteProject(s, id).prodIds, s.prodIds)
    ensures Subsequence(DeleteProject(s, id).hourlyIds, s.hourlyIds)
    ensures forall x :: x in DeleteProject(s, id).sheetIds ==> !OwnsSheet(id, x)
  {
    WithoutMembers(s.prodIds, [id]);
    WithoutMembers(s.hourlyIds, [id]);
    WithoutSubsequence(s.prodIds, [id]);
    WithoutSubsequence(s.hourlyIds, [id]);
  }

  /**
   * `handleSelectProject`: toggles the id in the selection of its project's category;
   * an unknown id changes nothing.
   */
  function SelectProject(s: Dashboard, id: string): Dashboard {
    match FindProject(s.projects, id)
    case None => s
    case Some(p) =>
      if p.category == Production then s.(prodIds := Toggle(s.prodIds, id))
      else s.(hourlyIds := Toggle(s.hourlyIds, id))
  }

  /** Selecting flips the id's membership in its category's list and touches nothing else. */
  lemma SelectProjectFacts(s: Dashboard, id: string)
    ensures FindProject(s.projects, id).None? ==> SelectProject(s, id) == s
    ensures SelectProject(s, id).projects == s.projects && SelectProject(s, id).sheetIds == s.sheetIds
    ensures FindProject(s.projects, id).Some? && FindProject(s.projects, id).value.category == Production ==>
      SelectProject(s, id).hourlyIds == s.hourlyIds &&
      (id in SelectProject(s, id).prodIds <==> id !in s.prodIds) &&
      forall x :: x != id ==> (x in SelectProject(s, id).prodIds <==> x in s.prodIds)
    ensures FindProject(s.projects, id).Some? && FindProject(s.projects, id).value.category == Hourly ==>
      SelectProject(s, id).prodIds == s.prodIds &&
      (id in SelectProject(s, id).hourlyIds <==> id !in s.hourlyIds) &&
      forall x :: x != id ==> (x in SelectProject(s, id).hourlyIds <==> x in s.hourlyIds)
  {
    ToggleMembers(s.prodIds, id);
    ToggleMembers(s.hourlyIds, id);
  }
}
