# DesiCrew dashboard core, modelled in Dafny

The dashboard pulls tabular data from publicly shared Google Spreadsheets and folds it into per-person summary tables.

**Data pipeline.**
- It discovers which tabs belong to each selected project, first from the project's custom sheet list and then by scanning the spreadsheet's public page.
- It fetches every selected tab as CSV and parses each into rows keyed by header.
- Date columns are normalized, and every row is stamped with its source project, category and sheet.
- Column roles ("Annotator Name", "Frame ID", …) are resolved by fuzzy key matching against an alias table.
- The merged rows are then folded into:
  - annotator, user, QC and combined-performance boards;
  - an attendance matrix with hourly sheets ordered by the date in their names;
  - the headline metrics.

**Components.**
- A data table filters, searches, totals and exports those rows as CSV.
- Selection widgets compute the next list of selected ids.
- A pie chart shows the ten largest contributors plus "Others".
- A project dialog adds and edits project records.

The model has one module per source file, plus four helper modules:
- `Wrappers`: `Option`.
- `Text`: trimming, ASCII case mapping, decimal digits, split and join.
- `Seqs`: filtering, deduplication, toggling, sums and stable sorting.
- `Rows`: a JavaScript plain object as an ordered association list, with the key order JavaScript gives it: array-index keys first in ascending order, then the other keys in insertion order.

The remaining modules are:
- `SheetApi` models `services/api.ts`.
- `Ingest` models the project and sheet plumbing of `App.tsx`: date normalization, sheet dates, `loadSheets`, `mergeData` and the project list updates.
- `Summaries` models `processedSummaries` and `metrics` from `App.tsx`.
- `SummaryLaws` holds the lemmas about those summaries.
- `DataTable`, `Selection`, `MultiSelect`, `PieChart` and `ProjectManager` model the components of the same names.

Code that loops in the source is modelled as a method with a loop, proved equal to a recursive specification function. Examples are the CSV record splitter, the per-row aggregation passes and the export. Properties are proved about those functions.

**External inputs.** Network fetches, the date parser and the spreadsheet page enter as parameters:
- the CSV text per (spreadsheet, sheet);
- the candidate tab names per spreadsheet;
- a `string -> Option<CalDate>` oracle for `new Date(s)`.

## Model

| member | source | states |
|---|---|---|
| Text.Trim | services/api.ts:10 | the result has no leading or trailing white space |
| Text.TrimInfix | services/api.ts:10 | the trimmed text is a contiguous infix of the input with only white space before and after it, and it is non-empty when the input has any non-space character |
| Text.TrimIdempotent | services/api.ts:10 | trimming twice is trimming once |
| Text.LowerFacts | services/api.ts:151 | lower-casing leaves no upper-case letter, is idempotent, keeps a string without upper-case letters, and gives the same result from the upper-cased text |
| Text.UpperFacts | App.tsx:30 | upper-casing leaves no lower-case letter, is idempotent, keeps a string without lower-case letters, and gives the same result from the lower-cased text |
| Text.NatToStringRoundTrip | components/DataTable.tsx:143 | the decimal rendering of a count reads back as that count |
| Text.ParseFloatReads | App.tsx:242 | `parseFloat` reads a rendered integer back whatever non-digit text follows it |
| Text.ParseFloatSkipsSpace | App.tsx:242 | leading white space does not change what `parseFloat` reads |
| Text.StringToNumberReads | components/DataTable.tsx:93 | `Number` reads a rendered integer back, a decimal with a fraction as its integer part, and blank text as 0 |
| Text.Split | App.tsx:123 | splitting gives at least one piece and no piece holds the separator |
| Text.SplitJoin | App.tsx:123 | joining the pieces with the separator restores the text |
| Text.SplitAfter | App.tsx:151 | text before the first separator is the first piece |
| Text.Pad2 | App.tsx:22-23 | `padStart(2, '0')` keeps the value, gives at least two digits and exactly two below 100 |
| Seqs.Dedup | App.tsx:224 | `Array.from(new Set(…))` is duplicate-free with the same members |
| Seqs.DedupAppend | components/SelectionModal.tsx:33-34 | the set of `a` then `b` is the distinct `a` followed by the distinct `b` not in `a` |
| Seqs.ToggleOrder | components/SelectionModal.tsx:21-27 | removing keeps order and shortens the list; adding appends; a duplicate-free list stays so |
| Seqs.ToggleTwice | components/SelectionModal.tsx:21-27 | toggling twice restores every membership |
| Seqs.SortBy | components/OverallPieChart.tsx:56 | sorting keeps length and multiset and orders by key |
| Seqs.SortByStable | App.tsx:282 | entries with equal keys keep their input order |
| Seqs.SortStrings | components/DataTable.tsx:25 | default `sort()`: a permutation in non-decreasing string order |
| Seqs.FlatMapMembers | App.tsx:224 | a key is in the flattened list iff some row holds it |
| Rows.PutGet | services/api.ts:135 | after `o[k] = v`, reading `k` gives `v` and every other key is unchanged |
| Rows.PutShape | services/api.ts:135 | assigning an existing key keeps the key order; a new non-index key goes last |
| Rows.PutKeepsOrder | services/api.ts:133-136 | assignment keeps JavaScript's key order (index keys ascending first) |
| Rows.PutEachGet | components/DataTable.tsx:20-29 | an object built by assigning each key reads each listed key's value and nothing else |
| SheetApi.ExtractSpreadsheetId | services/api.ts:7-11 | the maximal id-character run after the leftmost `/d/` that has one; otherwise the trimmed input |
| SheetApi.ExtractIdempotent | services/api.ts:7-11 | extracting from an extracted id gives the same id |
| SheetApi.SplitRecords | services/api.ts:93-107 | the record loop yields the quote-aware records, dropping an empty last one |
| SheetApi.ParseLine | services/api.ts:110-128 | the field loop yields the quote-aware fields with `""` as a literal quote |
| SheetApi.BuildRow | services/api.ts:133-136 | the header loop builds the row assigning every header its trimmed cell or "" |
| SheetApi.ParseCsv | services/api.ts:92-139 | `parseCSV` gives one row per record after the header record |
| SheetApi.ReadRecord | services/api.ts:131-138 | one pass appends the next record's row |
| SheetApi.CsvRows | services/api.ts:108 | no records give no rows; otherwise one row fewer than records |
| SheetApi.DataRowsAt | services/api.ts:131-138 | the i-th row is built from the i-th later record's fields |
| SheetApi.RowKeySet | services/api.ts:134-136 | a row's keys are exactly the headers |
| SheetApi.RowShape | services/api.ts:133-136 | a row lists each key once, in JavaScript key order |
| SheetApi.RowCell | services/api.ts:135 | a header reads the cell of its last occurrence among the headers |
| SheetApi.RowKeysInOrder | services/api.ts:133-136 | distinct non-index headers are the row's keys in header order |
| SheetApi.EmptyCsv | services/api.ts:107-108 | empty text gives no records and no rows |
| SheetApi.PiecesUnquoted | services/api.ts:97-106 | without quotes, records are the line-feed pieces |
| SheetApi.FieldsUnquoted | services/api.ts:114-126 | without quotes, fields are the comma pieces |
| SheetApi.NormalizeShape | services/api.ts:151 | a normalized name has no upper-case letter and no separator |
| SheetApi.NormalizeIdempotent | services/api.ts:151 | normalizing twice is normalizing once |
| SheetApi.NormalizeDropsSeparator | services/api.ts:151 | deleting a space, `-` or `_` anywhere leaves the normalized name unchanged |
| SheetApi.NormalizeIgnoresCase | services/api.ts:151 | letter case does not change the normalized name |
| SheetApi.FindFirst | services/api.ts:156 | the position of the first entry in the list, or none when no entry is in it |
| SheetApi.FindKey | services/api.ts:153-172 | a found key is a key whose normalized form is one of the target's alias names; no key means none qualifies |
| SheetApi.FindKeyExact | services/api.ts:156-157 | the first non-empty key normalizing to the target wins |
| SheetApi.FindKeyAlias | services/api.ts:159-171 | with no exact match, the first key spelt as one of the aliases wins |
| SheetApi.FindKeyMiss | services/api.ts:170-171 | a target without alias list and without exact match finds nothing |
| SheetApi.UnderscoreAliasUnreachable | services/api.ts:160-167 | aliases containing `_` never match, because normalizing deletes `_` |
| SheetApi.WantedNames | services/api.ts:37-45 | the kept names are exactly the category's wanted names |
| SheetApi.Discovered | services/api.ts:19-70 | duplicate-free; primary matches win; fallback only when no primary name is wanted; nothing on failure |
| SheetApi.CollectWanted | services/api.ts:31-47 | one scan adds the wanted candidates to an insertion-ordered set |
| SheetApi.FetchSheetList | services/api.ts:19-70 | `fetchSheetList` returns the discovered names |
| SheetApi.WantedIgnoresCase | services/api.ts:34 | the tab filter does not depend on letter case |
| Ingest.NormalizeDateValue | App.tsx:16-27 | absent or sentinel values give ""; unparsable text is returned trimmed; a parsable date is formatted `YYYY/MM/DD` |
| Ingest.FormatDateRoundTrip | App.tsx:22-24 | the formatted date splits on `/` into year, month and day that read back as the date |
| Ingest.NormalizeDateIdempotent | App.tsx:16-27 | when every date the parser produces parses back as itself once formatted, normalizing twice is normalizing once |
| Ingest.FindDate | App.tsx:35 | the leftmost day-month match, or none when no position matches |
| Ingest.MonthIndex | App.tsx:31-38 | a listed month gives its index; any other gives 0 |
| Ingest.SheetDateKey | App.tsx:29-42 | the key is 0 exactly when the name has no day-month match |
| Ingest.MonthOrder | App.tsx:39 | a date in an earlier month sorts before any date in a later month |
| Ingest.SheetDateIgnoresCase | App.tsx:30 | the sheet date does not depend on letter case |
| Ingest.FindProject | App.tsx:116 | a found project has the id; none exactly when no project has it |
| Ingest.CustomSheetNames | App.tsx:122-124 | custom names are non-empty and trimmed |
| Ingest.ProjectSheetNames | App.tsx:119-129 | a project's names are its custom names and its discovered names, each once |
| Ingest.CollectNames | App.tsx:119-128 | the name-set loop yields the project's names |
| Ingest.PushRefs | App.tsx:130-132 | each name becomes a reference whose id is the project id, a bar and the name |
| Ingest.LoadSheets | App.tsx:112-137 | the loop collects the references of every selected project |
| Ingest.AvailableSheetsShape | App.tsx:130-132 | every reference's id is its project id, a bar and its name |
| Ingest.AvailableSheetsOfProject | App.tsx:115-132 | a selected project's tab is offered iff it is one of that project's names |
| Ingest.SheetIdRoundTrip | App.tsx:151 | splitting a sheet id gives back its project id and name when neither holds the separator bar |
| Ingest.FillProcessed | App.tsx:157-162 | the header loop builds the row with date columns normalized |
| Ingest.ProcessRow | App.tsx:156-164 | one row is processed and stamped with its provenance |
| Ingest.ProcessRows | App.tsx:156-164 | the sheet's rows are processed in order |
| Ingest.FetchSheetRows | App.tsx:150-167 | a sheet id gives its project's processed rows, or none for an unknown project |
| Ingest.MergeData | App.tsx:145-175 | the merge loop concatenates the rows of each selected sheet in selection order |
| Ingest.MergedConcat | App.tsx:168-169 | merging two selections concatenates their rows |
| Ingest.UnknownProjectNoRows | App.tsx:152-166 | an id naming no project contributes no rows |
| Ingest.StampedProvenance | App.tsx:163 | a stamped row reads its project name, category and sheet |
| Ingest.ProcessedCellOf | App.tsx:158-161 | with distinct headers, each header reads its processed cell |
| Ingest.ParsedRowsShareKeys | App.tsx:155 | every parsed row has the first row's keys |
| Ingest.UpdateProjectFind | App.tsx:205-207 | looking up the updated id gives the update; other ids are unaffected |
| Ingest.WithoutProject | App.tsx:210 | exactly the projects with another id stay, in order |
| Ingest.WithoutOwned | App.tsx:213 | exactly the sheet ids not owned by the project stay, in order |
| Ingest.DeleteProjectFacts | App.tsx:209-214 | the project is gone, others stay, and it leaves every selection list |
| Ingest.SelectProjectFacts | App.tsx:216-220 | an unknown id changes nothing; a known one toggles in its category's list only |
| Summaries.Clean | App.tsx:226-230 | a cleaned name is "" or holds `@` |
| Summaries.CleanIdempotent | App.tsx:226-230 | cleaning a cleaned name changes nothing |
| Summaries.CleanNotIndex | App.tsx:226-230 | a cleaned name is never an array-index key |
| Summaries.AllKeysMembers | App.tsx:224 | the key list is duplicate-free and holds exactly the keys of some row |
| Summaries.Record | App.tsx:245-246 | one entry updates a board's tally |
| Summaries.AnnotatorBlock | App.tsx:244-251 | the annotator block updates the annotator and annotator-QC tallies |
| Summaries.UserBlock | App.tsx:252-259 | the user block updates the user and user-QC tallies |
| Summaries.CombinedBlock | App.tsx:260-263 | the combined block updates the combined tally |
| Summaries.ReadRow | App.tsx:241-243 | `ann` and `usr` are blank or mail addresses that cleaning keeps; `usr` needs a user column; `ann` falls back to `usr` when the annotator cell is blank; frame id and QC name are trimmed; number cells read the integers they render |
| Summaries.NumberCellReads | App.tsx:242 | a missing number cell reads 0 and a rendered integer reads as itself |
| Summaries.ProductionRow | App.tsx:240-264 | one production row updates all five boards |
| Summaries.Report | App.tsx:290-294 | a tally is reported as one row per name in first-seen order |
| Summaries.RecordMark | App.tsx:273-278 | one attendance mark updates the employee table and statuses |
| Summaries.HourlyRow | App.tsx:265-279 | one hourly row updates the sheet set, employees and statuses |
| Summaries.AttendanceRows | App.tsx:283-287 | the attendance loop builds one row per employee |
| Summaries.Accumulate | App.tsx:238-280 | the row loop yields the boards and hourly state of all rows |
| Summaries.ProcessedSummaries | App.tsx:222-297 | `processedSummaries` equals the summary of the rows |
| Summaries.MetricsPass | App.tsx:305-310 | the metrics loop yields the frame set and the three sums |
| Summaries.ComputeMetrics | App.tsx:299-318 | `metrics` equals the metrics of the production rows |
| SummaryLaws.NamesMembers | App.tsx:245 | a board lists each name entered on it, once |
| SummaryLaws.EntriesMembers | App.tsx:238-264 | an entry is on a board iff some production row contributes it |
| SummaryLaws.BoardNames | App.tsx:290-294 | a board's names are distinct and are exactly the contributing rows' names |
| SummaryLaws.BoardNamesMail | App.tsx:229 | every name on a board holds `@` and is not an index key |
| SummaryLaws.UsersNeedKey | App.tsx:291-292 | without a user column the user and user-QC boards are empty |
| SummaryLaws.BoardWithin | App.tsx:247-258 | QC boards name only production-board people with at most their objects |
| SummaryLaws.CombinedNames | App.tsx:260 | everyone on the combined board is on the annotator or user board |
| SummaryLaws.FramesMembers | App.tsx:246 | a person's frame set holds exactly the non-empty frame ids of their rows |
| SummaryLaws.FramesAtMost | App.tsx:290 | a frame count never exceeds the entries |
| SummaryLaws.SheetsMembers | App.tsx:266 | the sheet set holds exactly the hourly rows' sheets |
| SummaryLaws.MarksNamed | App.tsx:273 | every mark has a non-empty name |
| SummaryLaws.EmpKeys | App.tsx:275 | the employee table names each marked employee once |
| SummaryLaws.EmpFirstSeen | App.tsx:275 | an employee's details come from their first row |
| SummaryLaws.LastStatusWins | App.tsx:277 | the last row per employee and sheet decides the status |
| SummaryLaws.AttendanceIdentity | App.tsx:284 | an attendance row reads the employee's number, name and code |
| SummaryLaws.AttendanceCellValue | App.tsx:285 | each sheet's cell is the recorded status or `NIL` |
| SummaryLaws.SortedSheetsFacts | App.tsx:282 | the sheets sorted by date: ordered, a permutation, distinct |
| SummaryLaws.UndatedFirst | App.tsx:282 | undated sheets come before every dated one |
| SummaryLaws.SameDateKeepsOrder | App.tsx:282 | sheets of the same date keep first-seen order |
| SummaryLaws.FrameSetMembers | App.tsx:306 | the frame set holds exactly the non-empty trimmed frame ids |
| SummaryLaws.QcWithinTotal | App.tsx:307-309 | with non-negative objects, QC objects are between 0 and the total |
| SummaryLaws.NoCheckedRows | App.tsx:309-316 | without QC-checked rows the QC sums are 0 and the rate is `0%` |
| SummaryLaws.MetricsBounds | App.tsx:311-316 | frames at most the production rows; QC objects within the total |
| DataTable.FilterColumns | components/DataTable.tsx:16-18 | the given columns, or the first three headers |
| DataTable.Column | components/DataTable.tsx:23 | one shown cell string per row, and a row shows "" exactly when its cell is absent, the empty string or the number 0 |
| DataTable.OptionsFacts | components/DataTable.tsx:23-25 | options are sorted, distinct, and exactly the listed values some row shows |
| DataTable.FilterableDataGet | components/DataTable.tsx:20-29 | each filter column maps to its options; other columns have none |
| DataTable.ToggleFilterValueEffect | components/DataTable.tsx:31-39 | the column's list is toggled: membership flips, append when absent, order kept when present, other columns unchanged |
| DataTable.ToggleFilterValueTwice | components/DataTable.tsx:31-39 | toggling a value twice restores the column's memberships |
| DataTable.MatchesFiltersIff | components/DataTable.tsx:47-50 | a row passes iff every non-empty selection contains its cell |
| DataTable.FilteredDataOrder | components/DataTable.tsx:41-54 | filtered rows keep order and are exactly the rows matching search and filters |
| DataTable.FilteredDataAll | components/DataTable.tsx:43-50 | with no term and empty selections every row passes |
| DataTable.TotalForKinds | components/DataTable.tsx:59-102 | a video id has no total; frame id is a count within the rows; attendance iff some count is positive; sum-key headers are summed |
| DataTable.TotalsGet | components/DataTable.tsx:56-105 | each header reads its total; other keys have none |
| DataTable.TotalsStep | components/DataTable.tsx:58-103 | one header pass adds that header's total |
| DataTable.Totals | components/DataTable.tsx:56-105 | the header loop builds the totals object |
| DataTable.OverallAttendanceTotal | components/DataTable.tsx:107-120 | none exactly when no total is attendance; otherwise the componentwise sums |
| DataTable.ExportCell | components/DataTable.tsx:128-132 | `P`, `L` and `HD` come exactly from the attendance words or those letters themselves |
| DataTable.DataLines | components/DataTable.tsx:126-136 | one quoted line per row, in order |
| DataTable.PushRow | components/DataTable.tsx:126-136 | one pass appends the next row's line |
| DataTable.ExportToCsv | components/DataTable.tsx:122-150 | the export loop yields the header line, row lines, a line of `""` cells (one per header) and the totals line |
| DataTable.EscapedRoundTrip | components/DataTable.tsx:132-133 | an escaped quoted cell parses back to the cell |
| DataTable.QuotedRoundTrip | components/DataTable.tsx:133 | a quoted cell before a comma or the end parses back to the cell |
| DataTable.LineRoundTrip | components/DataTable.tsx:125-135 | a joined line of quoted cells parses back to the cells |
| DataTable.ExportRoundTrip | components/DataTable.tsx:122-150 | every exported line parses back to its cells; the totals row starts `GRAND TOTALS` |
| Selection.ToggleSelectionEffect | components/SelectionModal.tsx:21-27 | toggle flips only the option; removal keeps order; addition appends; no duplicates appear |
| Selection.SelectGroupFacts | components/SelectionModal.tsx:32-35 | distinct; the union of selection and group; prior order, then new group options |
| Selection.DeselectGroupFacts | components/SelectionModal.tsx:37-40 | the group's options are removed and the rest keep order |
| Selection.DisplayGroupsFacts | components/SelectionModal.tsx:43-46 | the displayed groups show again unchanged when handed back; each is a given group or the fallback of all options, which then shows every option |
| Selection.SelectAllFacts | components/SelectionModal.tsx:29-30 | after select all every option is selected and every group of options shows all selected; after deselect all every group counts 0 |
| Selection.GroupCount | components/SelectionModal.tsx:82-83 | the count is at most the group size; all selected iff every option is |
| MultiSelect.DisplayGroupsFacts | components/MultiSelect.tsx:38-41 | the displayed groups show again unchanged when handed back; each is a given group or the untitled group of all options, which then shows every option |
| MultiSelect.ToggleAllFlips | components/MultiSelect.tsx:30-36 | with options present, toggling all flips the "all selected" test, and from not-all it selects exactly the options |
| MultiSelect.LengthTestOnly | components/MultiSelect.tsx:20 | the "all selected" test can pass while an option is unselected |
| MultiSelect.ElementsSize | components/MultiSelect.tsx:20 | a list has at most as many distinct elements as entries, exactly as many without duplicates |
| MultiSelect.AllSelectedCovers | components/MultiSelect.tsx:20 | a distinct selection of options passing the length test holds every option |
| MultiSelect.ToggleKeepsWithin | components/MultiSelect.tsx:22-28 | toggling an option keeps the selection distinct and made of options |
| MultiSelect.ToggleTwiceRestores | components/MultiSelect.tsx:22-28 | toggling twice restores every membership |
| PieChart.SortedFacts | components/OverallPieChart.tsx:56-59 | sorting is a permutation by non-increasing value; top and rest split it |
| PieChart.TopIsLargest | components/OverallPieChart.tsx:56-59 | top and rest partition the input; top is at most ten, descending, each at least every rest value |
| PieChart.ChartShape | components/OverallPieChart.tsx:55-72 | at most 11 slices carrying the total; the top slices in order; `Others` iff the rest sum is positive |
| PieChart.WithTotalSum | components/OverallPieChart.tsx:63 | slices keep the items' value sum |
| PieChart.ChartConserves | components/OverallPieChart.tsx:60-66 | with non-negative values the slices add up to the total |
| ProjectManager.FilteredProjectsFacts | components/ProjectManager.tsx:30 | exactly the tab's projects, in list order |
| ProjectManager.EditedKeeps | components/ProjectManager.tsx:61-66 | an update keeps id, category and color; stores an extracted id and trimmed sheets |
| ProjectManager.EditRoundTrip | components/ProjectManager.tsx:49-66 | editing a stored project and saving unchanged gives it back |
| ProjectManager.ProjectForm.constructor | components/ProjectManager.tsx:18-29 | the production tab, empty forms, nothing being edited |
| ProjectManager.ProjectForm.HandleSubmit | components/ProjectManager.tsx:32-47 | an admin with name and id adds the draft and resets the form; otherwise nothing changes |
| ProjectManager.ProjectForm.StartEditing | components/ProjectManager.tsx:49-55 | an admin loads the project into the edit form; otherwise nothing changes |
| ProjectManager.ProjectForm.HandleUpdate | components/ProjectManager.tsx:57-69 | an admin with name and id hands over the edited original and closes the editor; otherwise nothing changes |

## Left out

- Network fetches, `localStorage` persistence, session storage and the login gate are I/O and enter or vanish as parameters (App.tsx:98-108, App.tsx:177-203, services/api.ts:141-149).
- `addProject` is left out because it draws its id from the clock and its color at random.
- Completion order of concurrent fetches: `loadSheets` pushes in completion order; the model concatenates in selection order.
- Floating point, `toFixed`, `toLocaleString` and the pie chart's percentages are left out.
  - Numbers are integers.
  - `parseFloat` is modelled as the integer part of the leading decimal prefix; a fraction with no digit before the dot, such as `.5`, reads as 0.
  - `Number()` is modelled as the integer part of a whole decimal literal, with blank text giving 0.
  - Exponents, hexadecimal and `Infinity` are not modelled.
- Summaries.ComputeMetrics: the quality rate is kept as the good/checked pair, not a rounded percentage string.
- Case mapping is ASCII only and white space is a fixed set of characters; JavaScript's full Unicode tables are not modelled.
- String sort compares code points; JavaScript compares UTF-16 code units.
- Prototype-inherited keys (`constructor`, `__proto__`) of JavaScript objects are not modelled.
- `new Date(s)` is an oracle parameter: which strings parse is not modelled.
  - Sheet dates map to a day number in 2025 rather than a timestamp. Both give the same order for day numbers within the range of `Date`; beyond it `getTime()` is NaN and the source's comparator has no consistent order, while the day number still orders.
- A sheet id without `|` names the sheet `undefined` downstream; the model carries no sheet name and stamps "".
- Cells are strings or integers; `null` and boolean cells are not modelled, so the `typeof … !== 'boolean'` test at components/DataTable.tsx:99 always passes.
- SummaryLaws.AttendanceIdentity and SummaryLaws.AttendanceCellValue demand distinct headers, because a sheet named `SNO`, `NAME` or `EMP CODE` overwrites that column.
- The CSV download itself (Blob, object URL, link click and file name) is left out; the model stops at the lines.
- Extra fields of pie chart items are not carried into the slices.
- The active-slice hover state of the pie chart and the view toggles of the dialogs (`setActiveTab`, `setShowAdd`, `setEditingId(null)` on cancel, `onDelete`, `onSelect`) are plain assignments and are not modelled.
- The "select all" indicator of the multi-select is a length test only; the model keeps it as written, and it can show all selected while an option is not (the lemma `LengthTestOnly` holds such an input).
