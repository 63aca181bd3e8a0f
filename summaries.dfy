/**
 * The summaries the dashboard derives from the merged rows: the per-person production
 * boards (frames and objects), the QC boards (objects and errors), the combined
 * performance, the attendance matrix of the hourly sheets, and the headline metrics.
 */
module Summaries {
  import opened Wrappers
  import opened Text
  import opened Seqs
  import opened Rows
  import SheetApi
  import Ingest

  /** A merged row: column name to cell text. */
  type Row = Assoc<string>

  // ---------------------------------------------------------------------------
  // Cell coercions

  /** `row[k || '']`. */
  function Cell(row: Row, k: Option<string>): Option<string> {
    Get(row, k.GetOr(""))
  }

  /** `a || b` on two cells: the first unless it is missing or empty. */
  function OrCell(a: Option<string>, b: Option<string>): Option<string> {
    if a.Some? && a.value != "" then a else b
  }

  /** A key `findKey` returned, used as a condition. */
  predicate Truthy(k: Option<string>) {
    k.Some? && k.value != ""
  }

  /** `String(v || '').trim()`. */
  function TrimmedCell(v: Option<string>): string {
    Trim(v.GetOr(""))
  }

  /** `parseFloat(String(v || '0')) || 0`, integer part; text without a number counts 0. */
  function NumberCell(v: Option<string>): int {
    ParseFloatInt(if v.Some? && v.value != "" then v.value else "0").GetOr(0)
  }

  /**
   * `clean`: a blank cell and any-case `undefined` or `nil` give `""`; a name without
   * `@` gets the company mail domain.
   */
  function Clean(v: Option<string>): (r: string)
    ensures r == "" || '@' in r
  {
    var val := Trim(v.GetOr(""));
    if val == "" || ToLower(val) == "undefined" || ToLower(val) == "nil" then ""
    else if '@' in val then val
    else
      assert (val + "@rprocess.in")[|val|] == '@';
      val + "@rprocess.in"
  }

  /** Cleaning a cleaned name changes nothing. */
  lemma CleanIdempotent(v: Option<string>)
    ensures Clean(Some(Clean(v))) == Clean(v)
  {
    var val := Trim(v.GetOr(""));
    var r := Clean(v);
    if r != "" {
      if r == val {
        TrimIdempotent(v.GetOr(""));
      } else {
        assert r == val + "@rprocess.in";
        assert r[0] == val[0] && r[|r| - 1] == 'n';
        TrimUnpadded(r);
      }
      var i :| 0 <= i < |r| && r[i] == '@';
      assert ToLower(r)[i] == '@';
      assert '@' !in "undefined" && '@' !in "nil";
    }
  }

  /** A cleaned name is never an array index, so the boards list names in first-seen order. */
  lemma CleanNotIndex(v: Option<string>)
    ensures !IsArrayIndex(Clean(v))
  {
    var r := Clean(v);
    if r != "" {
      var i :| 0 <= i < |r| && r[i] == '@';
      assert !IsDigit(r[i]);
    }
  }

  // ---------------------------------------------------------------------------
  // Production rows

  /** The columns `findKey` picks among all keys for the production boards. */
  datatype ProdKeys = ProdKeys(ann: Option<string>, user: Option<string>, frame: Option<string>,
                               objects: Option<string>, qc: Option<string>, errors: Option<string>)

  function RowKeys(row: Row): seq<string> {
    Keys(row)
  }

  /** `Array.from(new Set(rawData.flatMap(row => Object.keys(row))))`. */
  function AllKeys(rows: seq<Row>): seq<string> {
    Dedup(FlatMap(rows, RowKeys))
  }

  /** The keys are the columns of the rows, each once. */
  lemma AllKeysMembers(rows: seq<Row>, k: string)
    ensures NoDup(AllKeys(rows))
    ensures k in AllKeys(rows) <==> exists row :: row in rows && k in Keys(row)
  {
    FlatMapMembers(rows, RowKeys, k);
  }

  function ResolveKeys(allKeys: seq<string>): ProdKeys {
    ProdKeys(SheetApi.FindKey(allKeys, "Annotator Name"), SheetApi.FindKey(allKeys, "UserName"),
             SheetApi.FindKey(allKeys, "Frame ID"), SheetApi.FindKey(allKeys, "Number of Object Annotated"),
             SheetApi.FindKey(allKeys, "Internal QC Name"), SheetApi.FindKey(allKeys, "Internal Polygon Error Count"))
  }

  predicate IsProduction(row: Row) {
    Get(row, "__projectCategory") == Some("production")
  }

  predicate IsHourly(row: Row) {
    Get(row, "__projectCategory") == Some("hourly")
  }

  /** `ann`: the cleaned annotator cell, or the user cell when that is empty. */
  function Annotator(row: Row, k: ProdKeys): string {
    Clean(OrCell(Cell(row, k.ann), Cell(row, k.user)))
  }

  /** `usr`: the cleaned user cell, when there is a user column. */
  function User(row: Row, k: ProdKeys): string {
    if Truthy(k.user) then Clean(Cell(row, k.user)) else ""
  }

  function FrameId(row: Row, k: ProdKeys): string {
    TrimmedCell(Cell(row, k.frame))
  }

  function Objects(row: Row, k: ProdKeys): int {
    NumberCell(Cell(row, k.objects))
  }

  function Errors(row: Row, k: ProdKeys): int {
    NumberCell(Cell(row, k.errors))
  }

  function QcName(row: Row, k: ProdKeys): string {
    TrimmedCell(Cell(row, k.qc))
  }

  /** The values a production row is read as: `ann`, `usr`, `fId`, `objs`, `qcN` and `errs`. */
  datatype View = View(ann: string, usr: string, frame: string, objects: int, qcName: string, errors: int)

  function ViewOf(row: Row, k: ProdKeys): View {
    View(Annotator(row, k), User(row, k), FrameId(row, k), Objects(row, k), QcName(row, k), Errors(row, k))
  }

  /** `qcN && qcN !== 'nil' && qcN !== '0'`: exact, case-sensitive comparisons. */
  predicate QcEligible(qcName: string) {
    qcName != "" && qcName != "nil" && qcName != "0"
  }

  /** `ann || usr`. */
  function Primary(v: View): string {
    if v.ann != "" then v.ann else v.usr
  }

  /**
   * The five maps the production rows feed: `annotatorMap`, `userMap`, `qcAnnMap`,
   * `qcUserMap` and `combinedPerf`.
   */
  datatype Board = Annotators | Users | QcAnnotators | QcUsers | Combined

  /** What one row adds to one board: the name it counts for, a frame id, objects and errors. */
  datatype Entry = Entry(name: string, frame: string, objects: int, errors: int)

  /**
   * What a row adds to a board, if anything. Only the annotator and user boards keep
   * frame ids and only the QC boards keep errors; the other fields stay empty.
   */
  function Contribution(v: View, b: Board): Option<Entry> {
    match b
    case Annotators =>
      if v.ann == "" then None else Some(Entry(v.ann, v.frame, v.objects, 0))
    case Users =>
      if v.usr == "" then None else Some(Entry(v.usr, v.frame, v.objects, 0))
    case QcAnnotators =>
      if v.ann == "" || !QcEligible(v.qcName) then None else Some(Entry(v.ann, "", v.objects, v.errors))
    case QcUsers =>
      if v.usr == "" || !QcEligible(v.qcName) then None else Some(Entry(v.usr, "", v.objects, v.errors))
    case Combined =>
      if Primary(v) == "" then None else Some(Entry(Primary(v), "", v.objects, 0))
  }

  function Opt<T>(o: Option<T>): seq<T> {
    match o
    case None => []
    case Some(x) => [x]
  }

  /** How the production rows among `rows` are read, in row order. */
  function Views(rows: seq<Row>, k: ProdKeys): seq<View> {
    if rows == [] then []
    else Views(rows[..|rows| - 1], k) + (if IsProduction(rows[|rows| - 1]) then [ViewOf(rows[|rows| - 1], k)] else [])
  }

  /** The entries the views add to a board, in order. */
  function BoardEntries(vs: seq<View>, b: Board): seq<Entry> {
    if vs == [] then [] else BoardEntries(vs[..|vs| - 1], b) + Opt(Contribution(vs[|vs| - 1], b))
  }

  /** The entries the rows add to a board, in row order. */
  function Entries(rows: seq<Row>, k: ProdKeys, b: Board): seq<Entry> {
    BoardEntries(Views(rows, k), b)
  }

  lemma BoardEntriesSnoc(vs: seq<View>, v: View, b: Board)
    ensures BoardEntries(vs + [v], b) == BoardEntries(vs, b) + Opt(Contribution(v, b))
  {
    assert (vs + [v])[..|vs|] == vs;
  }

  lemma ViewsSnoc(rows: seq<Row>, row: Row, k: ProdKeys)
    ensures Views(rows + [row], k) == Views(rows, k) + if IsProduction(row) then [ViewOf(row, k)] else []
  {
    assert (rows + [row])[..|rows|] == rows;
  }

  // ---------------------------------------------------------------------------
  // What a board holds, stated on its entries

  /** The board's names: first-seen order, each once (the keys of `map`). */
  function Names(es: seq<Entry>): seq<string> {
    if es == [] then [] else AddNew(Names(es[..|es| - 1]), es[|es| - 1].name)
  }

  /** The distinct non-empty frame ids entered for `n`, in first-seen order (`frameSet`). */
  function Frames(es: seq<Entry>, n: string): seq<string> {
    if es == [] then []
    else
      var e := es[|es| - 1];
      var f := Frames(es[..|es| - 1], n);
      if e.name == n && e.frame != "" then AddNew(f, e.frame) else f
  }

  function ObjectTotal(es: seq<Entry>, n: string): int {
    if es == [] then 0
    else
      var e := es[|es| - 1];
      ObjectTotal(es[..|es| - 1], n) + (if e.name == n then e.objects else 0)
  }

  function ErrorTotal(es: seq<Entry>, n: string): int {
    if es == [] then 0
    else
      var e := es[|es| - 1];
      ErrorTotal(es[..|es| - 1], n) + (if e.name == n then e.errors else 0)
  }

  /** A board's record for one name: its set of frame ids, its objects and its errors. */
  datatype Acc = Acc(frames: seq<string>, objects: int, errors: int)

  function AccOf(es: seq<Entry>, n: string): Acc {
    Acc(Frames(es, n), ObjectTotal(es, n), ErrorTotal(es, n))
  }

  lemma AccSnoc(es: seq<Entry>, e: Entry, n: string)
    ensures Names(es + [e]) == AddNew(Names(es), e.name)
    ensures Frames(es + [e], n) == if e.name == n && e.frame != "" then AddNew(Frames(es, n), e.frame) else Frames(es, n)
    ensures ObjectTotal(es + [e], n) == ObjectTotal(es, n) + (if e.name == n then e.objects else 0)
    ensures ErrorTotal(es + [e], n) == ErrorTotal(es, n) + (if e.name == n then e.errors else 0)
  {
    assert (es + [e])[..|es|] == es;
  }

  /** A name nobody entered has an empty record. */
  lemma {:induction false} AbsentName(es: seq<Entry>, n: string)
    requires n !in Names(es)
    ensures Frames(es, n) == [] && ObjectTotal(es, n) == 0 && ErrorTotal(es, n) == 0
  {
    if es != [] {
      AbsentName(es[..|es| - 1], n);
    }
  }

  /** A board as the loop keeps it: the names in insertion order and each name's record. */
  datatype Tally = Tally(names: seq<string>, acc: map<string, Acc>)

  /** The board of the entries `es`: every name entered, with its record. */
  function TallyOf(es: seq<Entry>): Tally {
    var ns := Names(es);
    Tally(ns, map n | n in ns :: AccOf(es, n))
  }

  /** A name's record after one more of its entries. */
  function AccAdd(a: Acc, e: Entry): Acc {
    Acc(if e.frame != "" then AddNew(a.frames, e.frame) else a.frames, a.objects + e.objects, a.errors + e.errors)
  }

  lemma AccOfSnoc(es: seq<Entry>, e: Entry, n: string)
    ensures AccOf(es + [e], n) == if n == e.name then AccAdd(AccOf(es, n), e) else AccOf(es, n)
  {
    AccSnoc(es, e, n);
  }

  /** One more entry changes the record of its own name only. */
  lemma TallySnoc(es: seq<Entry>, e: Entry)
    ensures TallyOf(es + [e]) == Tally(AddNew(Names(es), e.name), TallyOf(es).acc[e.name := AccAdd(AccOf(es, e.name), e)])
  {
    TallyDomain(es, e);
    TallyAcc(es, e);
  }

  lemma TallyAcc(es: seq<Entry>, e: Entry)
    ensures TallyOf(es + [e]).acc == TallyOf(es).acc[e.name := AccAdd(AccOf(es, e.name), e)]
  {
    var want := TallyOf(es + [e]).acc;
    var got := TallyOf(es).acc[e.name := AccAdd(AccOf(es, e.name), e)];
    TallyDomain(es, e);
    forall n | n in got
      ensures got[n] == want[n]
    {
      TallyValue(es, e, n);
    }
  }

  lemma TallyDomain(es: seq<Entry>, e: Entry)
    ensures Names(es + [e]) == AddNew(Names(es), e.name)
    ensures forall n :: n in TallyOf(es).acc[e.name := AccAdd(AccOf(es, e.name), e)] <==> n in TallyOf(es + [e]).acc
  {
    AccSnoc(es, e, e.name);
  }

  lemma TallyValue(es: seq<Entry>, e: Entry, n: string)
    requires n in TallyOf(es).acc[e.name := AccAdd(AccOf(es, e.name), e)]
    ensures n in TallyOf(es + [e]).acc
    ensures TallyOf(es).acc[e.name := AccAdd(AccOf(es, e.name), e)][n] == TallyOf(es + [e]).acc[n]
  {
    TallyDomain(es, e);
    AccOfSnoc(es, e, n);
  }

  /**
   * `if (!map[name]) map[name] = {...}`, then the frame id added to the set and the
   * objects and errors added to the counters.
   */
  method Record(t: Tally, ghost es: seq<Entry>, e: Entry) returns (t': Tally)
    requires t == TallyOf(es)
    ensures t' == TallyOf(es + [e])
  {
    var a := if e.name in t.acc then t.acc[e.name] else Acc([], 0, 0);
    var frames := if e.frame != "" then AddNew(a.frames, e.frame) else a.frames;
    t' := Tally(AddNew(t.names, e.name), t.acc[e.name := Acc(frames, a.objects + e.objects, a.errors + e.errors)]);
    TallySnoc(es, e);
    if e.name !in t.acc {
      AbsentName(es, e.name);
    }
  }

  /** The five maps as the loop keeps them. */
  datatype Boards = Boards(ann: Tally, user: Tally, qcAnn: Tally, qcUser: Tally, combined: Tally)

  /** The boards the views feed. */
  function BoardsOfViews(vs: seq<View>): Boards {
    Boards(TallyOf(BoardEntries(vs, Annotators)), TallyOf(BoardEntries(vs, Users)),
           TallyOf(BoardEntries(vs, QcAnnotators)), TallyOf(BoardEntries(vs, QcUsers)),
           TallyOf(BoardEntries(vs, Combined)))
  }

  /** The boards of `rows`. */
  function BoardsOf(rows: seq<Row>, k: ProdKeys): Boards {
    BoardsOfViews(Views(rows, k))
  }

  /** `if (ann) { ...annotatorMap...; if (qc) { ...qcAnnMap... } }`. */
  method AnnotatorBlock(a: Tally, qa: Tally, ghost es: seq<Entry>, ghost qes: seq<Entry>, v: View)
    returns (a': Tally, qa': Tally)
    requires a == TallyOf(es) && qa == TallyOf(qes)
    ensures a' == TallyOf(es + Opt(Contribution(v, Annotators)))
    ensures qa' == TallyOf(qes + Opt(Contribution(v, QcAnnotators)))
  {
    a', qa' := a, qa;
    assert es + [] == es && qes + [] == qes;
    if v.ann != "" {
      assert Opt(Contribution(v, Annotators)) == [Entry(v.ann, v.frame, v.objects, 0)];
      a' := Record(a, es, Entry(v.ann, v.frame, v.objects, 0));
      if v.qcName != "" && v.qcName != "nil" && v.qcName != "0" {
        assert Opt(Contribution(v, QcAnnotators)) == [Entry(v.ann, "", v.objects, v.errors)];
        qa' := Record(qa, qes, Entry(v.ann, "", v.objects, v.errors));
      } else {
        assert Opt(Contribution(v, QcAnnotators)) == [];
      }
    } else {
      assert Opt(Contribution(v, Annotators)) == [] && Opt(Contribution(v, QcAnnotators)) == [];
    }
  }

  /** `if (kUser && usr) { ...userMap...; if (qc) { ...qcUserMap... } }`. */
  method UserBlock(u: Tally, qu: Tally, ghost es: seq<Entry>, ghost qes: seq<Entry>, v: View, k: ProdKeys)
    returns (u': Tally, qu': Tally)
    requires u == TallyOf(es) && qu == TallyOf(qes)
    requires v.usr != "" ==> Truthy(k.user)
    ensures u' == TallyOf(es + Opt(Contribution(v, Users)))
    ensures qu' == TallyOf(qes + Opt(Contribution(v, QcUsers)))
  {
    u', qu' := u, qu;
    assert es + [] == es && qes + [] == qes;
    if Truthy(k.user) && v.usr != "" {
      assert Opt(Contribution(v, Users)) == [Entry(v.usr, v.frame, v.objects, 0)];
      u' := Record(u, es, Entry(v.usr, v.frame, v.objects, 0));
      if v.qcName != "" && v.qcName != "nil" && v.qcName != "0" {
        assert Opt(Contribution(v, QcUsers)) == [Entry(v.usr, "", v.objects, v.errors)];
        qu' := Record(qu, qes, Entry(v.usr, "", v.objects, v.errors));
      } else {
        assert Opt(Contribution(v, QcUsers)) == [];
      }
    } else {
      assert Opt(Contribution(v, Users)) == [] && Opt(Contribution(v, QcUsers)) == [];
    }
  }

  /** `const primary = ann || usr; if (primary) { ...combinedPerf... }`. */
  method CombinedBlock(c: Tally, ghost es: seq<Entry>, v: View) returns (c': Tally)
    requires c == TallyOf(es)
    ensures c' == TallyOf(es + Opt(Contribution(v, Combined)))
  {
    c' := c;
    assert es + [] == es;
    var primary := if v.ann != "" then v.ann else v.usr;
    if primary != "" {
      assert Opt(Contribution(v, Combined)) == [Entry(primary, "", v.objects, 0)];
      c' := Record(c, es, Entry(primary, "", v.objects, 0));
    } else {
      assert Opt(Contribution(v, Combined)) == [];
    }
  }

  /** The three blocks of the loop body for one production row, given how it reads. */
  method ViewRow(bs: Boards, ghost vs: seq<View>, v: View, k: ProdKeys) returns (bs': Boards)
    requires bs == BoardsOfViews(vs)
    requires v.usr != "" ==> Truthy(k.user)
    ensures bs' == BoardsOfViews(vs + [v])
  {
    BoardEntriesSnoc(vs, v, Annotators);
    BoardEntriesSnoc(vs, v, Users);
    BoardEntriesSnoc(vs, v, QcAnnotators);
    BoardEntriesSnoc(vs, v, QcUsers);
    BoardEntriesSnoc(vs, v, Combined);
    var a, qa := AnnotatorBlock(bs.ann, bs.qcAnn, BoardEntries(vs, Annotators), BoardEntries(vs, QcAnnotators), v);
    var u, qu := UserBlock(bs.user, bs.qcUser, BoardEntries(vs, Users), BoardEntries(vs, QcUsers), v, k);
    var c := CombinedBlock(bs.combined, BoardEntries(vs, Combined), v);
    bs' := Boards(a, u, qa, qu, c);
  }

  /**
   * `ann`, `usr`, `fId`, `objs`, `qcN` and `errs` of a production row: the names are
   * cleaned (blank or a mail address, and cleaning again changes nothing), `usr` needs a
   * user column, `ann` falls back to `usr` when the annotator cell is blank, the frame
   * id and QC name are trimmed, and a number cell reads as the integer it renders.
   */
  method ReadRow(row: Row, k: ProdKeys) returns (v: View)
    ensures v == ViewOf(row, k)
    ensures (v.ann == "" || '@' in v.ann) && Clean(Some(v.ann)) == v.ann
    ensures (v.usr == "" || '@' in v.usr) && Clean(Some(v.usr)) == v.usr
    ensures v.usr != "" ==> Truthy(k.user)
    ensures Truthy(k.user) && (Cell(row, k.ann).None? || Cell(row, k.ann) == Some("")) ==> v.ann == v.usr
    ensures Trim(v.frame) == v.frame && Trim(v.qcName) == v.qcName
    ensures Cell(row, k.objects).None? ==> v.objects == 0
    ensures forall n :: Cell(row, k.objects) == Some(IntToString(n)) ==> v.objects == n
    ensures forall n :: Cell(row, k.errors) == Some(IntToString(n)) ==> v.errors == n
  {
    var ann := Clean(OrCell(Cell(row, k.ann), Cell(row, k.user)));
    var usr := if Truthy(k.user) then Clean(Cell(row, k.user)) else "";
    var fId := TrimmedCell(Cell(row, k.frame));
    var objs := NumberCell(Cell(row, k.objects));
    var qcN := TrimmedCell(Cell(row, k.qc));
    var errs := NumberCell(Cell(row, k.errors));
    v := View(ann, usr, fId, objs, qcN, errs);
    CleanIdempotent(OrCell(Cell(row, k.ann), Cell(row, k.user)));
    CleanIdempotent(Cell(row, k.user));
    TrimIdempotent(Cell(row, k.frame).GetOr(""));
    TrimIdempotent(Cell(row, k.qc).GetOr(""));
    NumberCellReads(Cell(row, k.objects));
    NumberCellReads(Cell(row, k.errors));
  }

  /** A number cell holding a rendered integer reads as that integer. */
  lemma NumberCellReads(c: Option<string>)
    ensures c.None? ==> NumberCell(c) == 0
    ensures forall n :: c == Some(IntToString(n)) ==> NumberCell(c) == n
  {
    forall n | c == Some(IntToString(n))
      ensures NumberCell(c) == n
    {
      ParseFloatReads(n, "");
      assert IntToString(n) + "" == IntToString(n);
      assert |IntToString(n)| > 0 by {
        if n >= 0 {
          assert IntToString(n) == NatToString(n);
        }
      }
    }
    if c.None? {
      ParseFloatReads(0, "");
      assert IntToString(0) + "" == "0";
    }
  }

  /** Row `i` of the `rawData.forEach` loop, as far as the production boards go. */
  method ProductionRow(bs: Boards, rows: seq<Row>, i: nat, k: ProdKeys) returns (bs': Boards)
    requires i < |rows|
    requires bs == BoardsOf(rows[..i], k)
    ensures bs' == BoardsOf(rows[..i + 1], k)
  {
    var row := rows[i];
    TakeSnoc(rows, i);
    ViewsSnoc(rows[..i], row, k);
    ghost var vs := Views(rows[..i], k);
    if IsProduction(row) {
      var v := ReadRow(row, k);
      assert Views(rows[..i + 1], k) == vs + [v];
      bs' := ViewRow(bs, vs, v, k);
    } else {
      assert Views(rows[..i + 1], k) == vs;
      bs' := bs;
    }
  }

  /** The row a board reports for one name. */
  function OutRow(b: Board, name: string, a: Acc): Assoc<Value> {
    match b
    case Annotators => [("NAME", Str(name)), ("FRAMECOUNT", Num(|a.frames|)), ("OBJECTCOUNT", Num(a.objects))]
    case Users => [("NAME", Str(Split(name, '@')[0])), ("FRAMECOUNT", Num(|a.frames|)), ("OBJECTCOUNT", Num(a.objects))]
    case QcAnnotators => [("NAME", Str(name)), ("OBJECTCOUNT", Num(a.objects)), ("ERRORCOUNT", Num(a.errors))]
    case QcUsers => [("NAME", Str(Split(name, '@')[0])), ("OBJECTCOUNT", Num(a.objects)), ("ERRORCOUNT", Num(a.errors))]
    case Combined => [("name", Str(name)), ("value", Num(a.objects))]
  }

  /** `Object.entries(map).map(...)`: one row per name, in first-seen order. */
  function BoardRows(es: seq<Entry>, b: Board): (r: seq<Assoc<Value>>)
    ensures |r| == |Names(es)|
  {
    var ns := Names(es);
    seq(|ns|, i requires 0 <= i < |ns| => OutRow(b, ns[i], AccOf(es, ns[i])))
  }

  /** The board's rows read off the loop's tally. */
  method Report(t: Tally, ghost es: seq<Entry>, b: Board) returns (out: seq<Assoc<Value>>)
    requires t == TallyOf(es)
    ensures out == BoardRows(es, b)
  {
    out := seq(|t.names|, i requires 0 <= i < |t.names| => OutRow(b, t.names[i], t.acc[t.names[i]]));
    assert forall i :: 0 <= i < |out| ==> out[i] == BoardRows(es, b)[i];
  }

  // ---------------------------------------------------------------------------
  // Hourly rows and the attendance matrix

  datatype Status = Present | Absent | HalfDay

  function StatusName(s: Status): string {
    match s
    case Present => "Present"
    case Absent => "Absent"
    case HalfDay => "P(1/2)"
  }

  /** `row[keys[i]]` reads the key `"undefined"` when the row has fewer keys. */
  function KeyAt(keys: seq<string>, i: nat): string {
    if i < |keys| then keys[i] else "undefined"
  }

  /** `a || b` on two keys `findKey` returned. */
  function OrKey(a: Option<string>, b: Option<string>): Option<string> {
    if Truthy(a) then a else b
  }

  /** `findKey(keys, "Employee Code") || findKey(keys, "Emp Code") || findKey(keys, "Emp ID") || keys[2]`. */
  function EmpCodeKey(keys: seq<string>): string {
    var k := OrKey(SheetApi.FindKey(keys, "Employee Code"),
                   OrKey(SheetApi.FindKey(keys, "Emp Code"), SheetApi.FindKey(keys, "Emp ID")));
    if Truthy(k) then k.value else KeyAt(keys, 2)
  }

  /**
   * The status of a login cell and a working-hours figure: absent without a login (a
   * blank cell or `nil` in any case, the latter tested before trimming), half a day
   * under five hours, present otherwise.
   */
  function LoginStatus(login: string, hours: int): Status {
    if Trim(login) != "" && ToLower(login) != "nil" then (if hours < 5 then HalfDay else Present)
    else Absent
  }

  /** `String(row['__sheetSource'] || '')`. */
  function SheetOf(row: Row): string {
    Get(row, "__sheetSource").GetOr("")
  }

  /** What an hourly row with a name records about that person and that sheet. */
  datatype Mark = Mark(name: string, sheet: string, sno: string, empCode: string, status: Status)

  /**
   * The mark of a row: hourly rows with a non-empty second column only. The serial
   * number, name, hours and login are the first, second, fourth and sixth columns.
   */
  function MarkOf(row: Row): Option<Mark> {
    var keys := Keys(row);
    var name := TrimmedCell(Get(row, KeyAt(keys, 1)));
    if !IsHourly(row) || name == "" then None
    else
      Some(Mark(name, SheetOf(row), TrimmedCell(Get(row, KeyAt(keys, 0))), TrimmedCell(Get(row, EmpCodeKey(keys))),
                LoginStatus(Get(row, KeyAt(keys, 5)).GetOr(""), NumberCell(Get(row, KeyAt(keys, 3))))))
  }

  function Marks(rows: seq<Row>): seq<Mark> {
    if rows == [] then [] else Marks(rows[..|rows| - 1]) + Opt(MarkOf(rows[|rows| - 1]))
  }

  /** `uniqueSheets`: the sheet of every hourly row, named or not, each once. */
  function Sheets(rows: seq<Row>): seq<string> {
    if rows == [] then []
    else
      var s := Sheets(rows[..|rows| - 1]);
      if IsHourly(rows[|rows| - 1]) then AddNew(s, SheetOf(rows[|rows| - 1])) else s
  }

  /** `empData[name]`. */
  datatype Emp = Emp(sno: string, name: string, empCode: string)

  /** `empData`: every named person with the serial number and code of their first row. */
  function EmpTable(ms: seq<Mark>): Assoc<Emp> {
    if ms == [] then []
    else
      var t := EmpTable(ms[..|ms| - 1]);
      var m := ms[|ms| - 1];
      if m.name in Keys(t) then t else Put(t, m.name, Emp(m.sno, m.name, m.empCode))
  }

  /** `attRecords[name][sheet]`: the status of the last mark for that person and sheet. */
  function LastStatus(ms: seq<Mark>, name: string, sheet: string): Option<Status> {
    if ms == [] then None
    else
      var m := ms[|ms| - 1];
      if m.name == name && m.sheet == sheet then Some(m.status) else LastStatus(ms[..|ms| - 1], name, sheet)
  }

  lemma MarksSnoc(rows: seq<Row>, row: Row)
    ensures Marks(rows + [row]) == Marks(rows) + Opt(MarkOf(row))
    ensures Sheets(rows + [row]) == if IsHourly(row) then AddNew(Sheets(rows), SheetOf(row)) else Sheets(rows)
  {
    assert (rows + [row])[..|rows|] == rows;
  }

  lemma MarkSnoc(ms: seq<Mark>, m: Mark, name: string, sheet: string)
    ensures EmpTable(ms + [m]) == if m.name in Keys(EmpTable(ms)) then EmpTable(ms) else Put(EmpTable(ms), m.name, Emp(m.sno, m.name, m.empCode))
    ensures LastStatus(ms + [m], name, sheet) == if m.name == name && m.sheet == sheet then Some(m.status) else LastStatus(ms, name, sheet)
  {
    assert (ms + [m])[..|ms|] == ms;
  }

  /** The hourly state of the loop: `uniqueSheets`, `empData` and `attRecords`. */
  datatype Hourly = Hourly(sheets: seq<string>, emp: Assoc<Emp>, att: map<string, map<string, Status>>)

  /** The sheets `name` has a mark on. */
  function MarkedSheets(ms: seq<Mark>, name: string): set<string> {
    set m | m in ms && m.name == name :: m.sheet
  }

  /** `attRecords[name]`: the person's status on each sheet they have a mark on. */
  function StatusMap(ms: seq<Mark>, name: string): map<string, Status> {
    map s | s in MarkedSheets(ms, name) :: LastStatus(ms, name, s).GetOr(Absent)
  }

  /** `attRecords`: the statuses of every named person. */
  function AttOf(ms: seq<Mark>): map<string, map<string, Status>> {
    map n | n in Keys(EmpTable(ms)) :: StatusMap(ms, n)
  }

  /** The hourly state the rows leave behind. */
  function HourlyOf(rows: seq<Row>): Hourly {
    var ms := Marks(rows);
    Hourly(Sheets(rows), EmpTable(ms), AttOf(ms))
  }

  /** A person without a mark has no status on any sheet. */
  lemma {:induction false} UnmarkedNoStatus(ms: seq<Mark>, name: string, sheet: string)
    requires name !in Keys(EmpTable(ms))
    ensures LastStatus(ms, name, sheet).None?
  {
    if ms != [] {
      var init, m := ms[..|ms| - 1], ms[|ms| - 1];
      MarkSnoc(init, m, name, sheet);
      assert ms == init + [m];
      var t := EmpTable(init);
      if m.name !in Keys(t) {
        PutKeySet(t, m.name, Emp(m.sno, m.name, m.empCode));
      }
      UnmarkedNoStatus(init, name, sheet);
    }
  }

  lemma MarkedSnoc(ms: seq<Mark>, m: Mark, name: string)
    ensures MarkedSheets(ms + [m], name) == if m.name == name then MarkedSheets(ms, name) + {m.sheet} else MarkedSheets(ms, name)
  {
    forall s | s in MarkedSheets(ms + [m], name)
      ensures s in MarkedSheets(ms, name) || (m.name == name && s == m.sheet)
    {
      var x :| x in ms + [m] && x.name == name && x.sheet == s;
      if x != m {
        assert x in ms;
      }
    }
  }

  /** A person has a status on exactly the sheets they have a mark on. */
  lemma {:induction false} MarkedStatus(ms: seq<Mark>, name: string, sheet: string)
    ensures sheet in MarkedSheets(ms, name) <==> LastStatus(ms, name, sheet).Some?
  {
    if ms != [] {
      var init, m := ms[..|ms| - 1], ms[|ms| - 1];
      assert ms == init + [m];
      MarkSnoc(init, m, name, sheet);
      MarkedSnoc(init, m, name);
      MarkedStatus(init, name, sheet);
    }
  }

  lemma UnmarkedSheets(ms: seq<Mark>, name: string)
    requires name !in Keys(EmpTable(ms))
    ensures MarkedSheets(ms, name) == {}
  {
    forall s | s in MarkedSheets(ms, name)
      ensures false
    {
      UnmarkedNoStatus(ms, name, s);
      MarkedStatus(ms, name, s);
    }
  }

  /** One more mark sets the status of its own person and sheet only. */
  lemma StatusMapSnoc(ms: seq<Mark>, m: Mark, name: string)
    ensures StatusMap(ms + [m], name) == if m.name == name then StatusMap(ms, name)[m.sheet := m.status] else StatusMap(ms, name)
  {
    MarkedSnoc(ms, m, name);
    var got := if m.name == name then StatusMap(ms, name)[m.sheet := m.status] else StatusMap(ms, name);
    forall s | s in got
      ensures StatusMap(ms + [m], name)[s] == got[s]
    {
      MarkSnoc(ms, m, name, s);
    }
  }

  lemma AttSnoc(ms: seq<Mark>, m: Mark)
    ensures AttOf(ms + [m]) ==
      var att := AttOf(ms);
      att[m.name := (if m.name in att then att[m.name] else map[])[m.sheet := m.status]]
  {
    var att, want := AttOf(ms), AttOf(ms + [m]);
    var got := att[m.name := (if m.name in att then att[m.name] else map[])[m.sheet := m.status]];
    MarkSnoc(ms, m, m.name, m.sheet);
    PutKeySet(EmpTable(ms), m.name, Emp(m.sno, m.name, m.empCode));
    assert forall n :: n in got <==> n in want;
    if m.name !in att {
      UnmarkedSheets(ms, m.name);
      assert StatusMap(ms, m.name) == map[];
    }
    forall n | n in got
      ensures got[n] == want[n]
    {
      StatusMapSnoc(ms, m, n);
    }
  }

  /**
   * `if (!empData[name]) empData[name] = {...}; if (!attRecords[name]) attRecords[name] = {};
   * attRecords[name][sheet] = status`.
   */
  method RecordMark(emp: Assoc<Emp>, att: map<string, map<string, Status>>, ghost ms: seq<Mark>, m: Mark)
    returns (emp': Assoc<Emp>, att': map<string, map<string, Status>>)
    requires emp == EmpTable(ms) && att == AttOf(ms)
    ensures emp' == EmpTable(ms + [m]) && att' == AttOf(ms + [m])
  {
    MarkSnoc(ms, m, m.name, m.sheet);
    AttSnoc(ms, m);
    emp', att' := emp, att;
    if m.name !in Keys(emp) {
      emp' := Put(emp, m.name, Emp(m.sno, m.name, m.empCode));
    }
    if m.name !in att {
      att' := att'[m.name := map[]];
    }
    att' := att'[m.name := att'[m.name][m.sheet := m.status]];
  }

  /** One hourly row of the `rawData.forEach` loop. */
  method HourlyRow(h: Hourly, rows: seq<Row>, i: nat) returns (h': Hourly)
    requires i < |rows|
    requires h == HourlyOf(rows[..i])
    ensures h' == HourlyOf(rows[..i + 1])
  {
    var row := rows[i];
    ghost var before := rows[..i];
    TakeSnoc(rows, i);
    MarksSnoc(before, row);
    h' := h;
    if IsHourly(row) {
      var sheet := SheetOf(row);
      var sheets := AddNew(h.sheets, sheet);
      var keys := Keys(row);
      var sno := TrimmedCell(Get(row, KeyAt(keys, 0)));
      var name := TrimmedCell(Get(row, KeyAt(keys, 1)));
      var empCode := TrimmedCell(Get(row, EmpCodeKey(keys)));
      var workingHrs := NumberCell(Get(row, KeyAt(keys, 3)));
      var login := Get(row, KeyAt(keys, 5)).GetOr("");
      var hasLogin := Trim(login) != "" && ToLower(login) != "nil";
      var emp, att := h.emp, h.att;
      if name != "" {
        var status := if hasLogin then (if workingHrs < 5 then HalfDay else Present) else Absent;
        var m := Mark(name, sheet, sno, empCode, status);
        assert MarkOf(row) == Some(m);
        emp, att := RecordMark(emp, att, Marks(before), m);
      } else {
        assert MarkOf(row) == None;
        assert Marks(before + [row]) == Marks(before);
      }
      h' := Hourly(sheets, emp, att);
    } else {
      assert MarkOf(row) == None;
      assert Marks(before + [row]) == Marks(before);
    }
  }

  /** `['SNO', 'NAME', 'EMP CODE', ...sortedSheets]`. */
  function AttendanceHeaders(sorted: seq<string>): seq<string> {
    ["SNO", "NAME", "EMP CODE"] + sorted
  }

  /** `Array.from(uniqueSheets).sort((a, b) => parseSheetDate(a) - parseSheetDate(b))`, a stable sort. */
  function SortedSheets(rows: seq<Row>): seq<string> {
    SortBy(Sheets(rows), Ingest.SheetDateKey)
  }

  /** `attRecords[name][s] || 'NIL'`. */
  function StatusText(st: Option<Status>): string {
    match st
    case None => "NIL"
    case Some(x) => StatusName(x)
  }

  /** The values of one person's attendance row, in header order. */
  function AttendanceCells(e: Emp, ms: seq<Mark>, name: string, sorted: seq<string>): (r: seq<string>)
    ensures |r| == 3 + |sorted|
  {
    [e.sno, e.name, e.empCode] +
      seq(|sorted|, i requires 0 <= i < |sorted| => StatusText(LastStatus(ms, name, sorted[i])))
  }

  lemma AttendanceCellAt(e: Emp, ms: seq<Mark>, name: string, sorted: seq<string>, j: nat)
    requires j < |sorted|
    ensures AttendanceCells(e, ms, name, sorted)[3 + j] == StatusText(LastStatus(ms, name, sorted[j]))
    ensures AttendanceHeaders(sorted)[3 + j] == sorted[j]
  {
  }

  /** `{ SNO, NAME, 'EMP CODE' }` followed by `r[s] = ...` for every sorted sheet. */
  function AttendanceRow(e: Emp, ms: seq<Mark>, name: string, sorted: seq<string>): Row {
    var h := AttendanceHeaders(sorted);
    SheetApi.RowPrefix(h, AttendanceCells(e, ms, name, sorted), |h|)
  }

  /** The rows for the people of `emp`, in its key order. */
  function AttendanceFor(emp: Assoc<Emp>, ms: seq<Mark>, sorted: seq<string>): (r: seq<Row>)
    ensures |r| == |emp|
  {
    seq(|emp|, i requires 0 <= i < |emp| => AttendanceRow(emp[i].1, ms, emp[i].0, sorted))
  }

  lemma AttendanceForStep(emp: Assoc<Emp>, ms: seq<Mark>, sorted: seq<string>, i: nat)
    requires i < |emp|
    ensures AttendanceFor(emp[..i + 1], ms, sorted) ==
      AttendanceFor(emp[..i], ms, sorted) + [AttendanceRow(emp[i].1, ms, emp[i].0, sorted)]
  {
    var a, b := AttendanceFor(emp[..i + 1], ms, sorted), AttendanceFor(emp[..i], ms, sorted);
    assert forall j :: 0 <= j < i ==> a[j] == b[j];
  }

  /** `Object.keys(empData).map(...)`: one row per person, in the table's key order. */
  function Attendance(ms: seq<Mark>, sorted: seq<string>): (r: seq<Row>)
    ensures |r| == |EmpTable(ms)|
  {
    AttendanceFor(EmpTable(ms), ms, sorted)
  }

  lemma HeaderRow(e: Emp, cells: seq<string>, sorted: seq<string>)
    requires |cells| == 3 + |sorted| && cells[..3] == [e.sno, e.name, e.empCode]
    ensures SheetApi.RowPrefix(AttendanceHeaders(sorted), cells, 3) == [("SNO", e.sno), ("NAME", e.name), ("EMP CODE", e.empCode)]
  {
    var h := AttendanceHeaders(sorted);
    assert h[0] == "SNO" && h[1] == "NAME" && h[2] == "EMP CODE";
    assert cells[0] == e.sno && cells[1] == e.name && cells[2] == e.empCode by {
      assert cells[..3][0] == cells[0] && cells[..3][1] == cells[1] && cells[..3][2] == cells[2];
    }
    var r1: Row := [("SNO", e.sno)];
    var r2: Row := r1 + [("NAME", e.name)];
    assert !IsArrayIndex("NAME") && !IsArrayIndex("EMP CODE") by {
      assert !IsDigit("NAME"[0]) && !IsDigit("EMP CODE"[0]);
    }
    assert SheetApi.RowPrefix(h, cells, 1) == r1 by {
      assert Keys<string>([]) == [];
    }
    assert Keys(r1) == ["SNO"];
    InsertShape(r1, "NAME", e.name);
    assert SheetApi.RowPrefix(h, cells, 2) == r2;
    assert Keys(r2) == ["SNO", "NAME"];
    InsertShape(r2, "EMP CODE", e.empCode);
  }

  /** `statuses` is `attRecords[name]` for the marks `ms`. */
  ghost predicate StatusesOf(statuses: map<string, Status>, ms: seq<Mark>, name: string) {
    (forall s :: s in statuses <==> LastStatus(ms, name, s).Some?) &&
    (forall s :: s in statuses ==> statuses[s] == LastStatus(ms, name, s).value)
  }

  /** `r[s] = attRecords[name][s] || 'NIL'` for the `j`-th sorted sheet. */
  method AttendanceCell(r: Row, e: Emp, statuses: map<string, Status>, sorted: seq<string>,
                        ghost ms: seq<Mark>, ghost name: string, j: nat)
    returns (r': Row)
    requires StatusesOf(statuses, ms, name) && j < |sorted|
    requires r == SheetApi.RowPrefix(AttendanceHeaders(sorted), AttendanceCells(e, ms, name, sorted), 3 + j)
    ensures r' == SheetApi.RowPrefix(AttendanceHeaders(sorted), AttendanceCells(e, ms, name, sorted), 3 + j + 1)
  {
    var s := sorted[j];
    var cell := if s in statuses then StatusName(statuses[s]) else "NIL";
    AttendanceCellAt(e, ms, name, sorted, j);
    assert cell == StatusText(LastStatus(ms, name, s));
    r' := Put(r, s, cell);
  }

  /** One person's row built the way `attFlat` builds it. */
  method AttendanceRowOf(e: Emp, statuses: map<string, Status>, sorted: seq<string>, ghost ms: seq<Mark>, ghost name: string)
    returns (r: Row)
    requires StatusesOf(statuses, ms, name)
    ensures r == AttendanceRow(e, ms, name, sorted)
  {
    r := [("SNO", e.sno), ("NAME", e.name), ("EMP CODE", e.empCode)];
    HeaderRow(e, AttendanceCells(e, ms, name, sorted), sorted);
    var j := 0;
    while j < |sorted|
      invariant 0 <= j <= |sorted|
      invariant r == SheetApi.RowPrefix(AttendanceHeaders(sorted), AttendanceCells(e, ms, name, sorted), 3 + j)
    {
      r := AttendanceCell(r, e, statuses, sorted, ms, name, j);
      j := j + 1;
    }
  }

  /** `attFlat`. */
  method AttendanceRows(emp: Assoc<Emp>, att: map<string, map<string, Status>>, ghost ms: seq<Mark>, sorted: seq<string>)
    returns (out: seq<Row>)
    requires forall n :: n in att <==> n in Keys(emp)
    requires forall n :: n in att ==> StatusesOf(att[n], ms, n)
    ensures out == AttendanceFor(emp, ms, sorted)
  {
    out := [];
    var i := 0;
    while i < |emp|
      invariant 0 <= i <= |emp|
      invariant out == AttendanceFor(emp[..i], ms, sorted)
    {
      var name := emp[i].0;
      assert name in att by {
        assert Keys(emp)[i] == name;
      }
      var r := AttendanceRowOf(emp[i].1, att[name], sorted, ms, name);
      AttendanceForStep(emp, ms, sorted, i);
      out := out + [r];
      i := i + 1;
    }
    TakeAll(emp);
  }

  /** The attendance maps give every person's statuses. */
  lemma AttStatuses(ms: seq<Mark>)
    ensures forall n :: n in AttOf(ms) <==> n in Keys(EmpTable(ms))
    ensures forall n :: n in AttOf(ms) ==> StatusesOf(AttOf(ms)[n], ms, n)
  {
    forall n, s | n in AttOf(ms)
      ensures s in AttOf(ms)[n] <==> LastStatus(ms, n, s).Some?
    {
      MarkedStatus(ms, n, s);
    }
  }

  // ---------------------------------------------------------------------------
  // processedSummaries

  /** The value `processedSummaries` returns. */
  datatype Summary = Summary(
    annotators: seq<Assoc<Value>>,
    users: seq<Assoc<Value>>,
    qcUsers: seq<Assoc<Value>>,
    qcAnn: seq<Assoc<Value>>,
    combinedPerformance: seq<Assoc<Value>>,
    attendance: seq<Row>,
    attendanceHeaders: seq<string>)

  /** What `processedSummaries` yields for the merged rows. */
  function SummaryOf(rows: seq<Row>): Summary {
    if rows == [] then Summary([], [], [], [], [], [], [])
    else
      var k := ResolveKeys(AllKeys(rows));
      var sorted := SortedSheets(rows);
      Summary(
        BoardRows(Entries(rows, k, Annotators), Annotators),
        if Truthy(k.user) then BoardRows(Entries(rows, k, Users), Users) else [],
        if Truthy(k.user) then BoardRows(Entries(rows, k, QcUsers), QcUsers) else [],
        BoardRows(Entries(rows, k, QcAnnotators), QcAnnotators),
        BoardRows(Entries(rows, k, Combined), Combined),
        Attendance(Marks(rows), sorted),
        AttendanceHeaders(sorted))
  }

  lemma EmptyState(k: ProdKeys)
    ensures BoardsOf([], k) == Boards(Tally([], map[]), Tally([], map[]), Tally([], map[]), Tally([], map[]), Tally([], map[]))
    ensures HourlyOf([]) == Hourly([], [], map[])
  {
    assert TallyOf([]) == Tally([], map[]);
    assert Keys(EmpTable([])) == [];
  }

  /** The single pass of `processedSummaries` over the rows, feeding every map. */
  method Accumulate(rows: seq<Row>, k: ProdKeys) returns (bs: Boards, h: Hourly)
    ensures bs == BoardsOf(rows, k)
    ensures h == HourlyOf(rows)
  {
    var none := Tally([], map[]);
    bs := Boards(none, none, none, none, none);
    h := Hourly([], [], map[]);
    EmptyState(k);
    var i := 0;
    while i < |rows|
      invariant 0 <= i <= |rows|
      invariant bs == BoardsOf(rows[..i], k)
      invariant h == HourlyOf(rows[..i])
    {
      bs := ProductionRow(bs, rows, i, k);
      h := HourlyRow(h, rows, i);
      i := i + 1;
    }
    TakeAll(rows);
  }

  /** `processedSummaries`: one pass over the rows, then the reports. */
  method ProcessedSummaries(rows: seq<Row>) returns (s: Summary)
    ensures s == SummaryOf(rows)
  {
    if rows == [] {
      return Summary([], [], [], [], [], [], []);
    }
    var allKeys := Dedup(FlatMap(rows, RowKeys));
    var k := ResolveKeys(allKeys);
    var bs, h := Accumulate(rows, k);
    var sorted := SortBy(h.sheets, Ingest.SheetDateKey);
    AttStatuses(Marks(rows));
    var attFlat := AttendanceRows(h.emp, h.att, Marks(rows), sorted);
    var annotators := Report(bs.ann, Entries(rows, k, Annotators), Annotators);
    var users := [];
    var qcUsers := [];
    if Truthy(k.user) {
      users := Report(bs.user, Entries(rows, k, Users), Users);
      qcUsers := Report(bs.qcUser, Entries(rows, k, QcUsers), QcUsers);
    }
    var qcAnn := Report(bs.qcAnn, Entries(rows, k, QcAnnotators), QcAnnotators);
    var combined := Report(bs.combined, Entries(rows, k, Combined), Combined);
    s := Summary(annotators, users, qcUsers, qcAnn, combined, attFlat, ["SNO", "NAME", "EMP CODE"] + sorted);
  }

  // ---------------------------------------------------------------------------
  // metrics

  /** `((qcObj - totErr) / qcObj * 100).toFixed(2) + '%'`, or `'0%'` without QC objects. */
  datatype Quality = NoQcRate | Rate(good: int, checked: int)

  /** The five headline figures. */
  datatype Metrics = Metrics(frames: int, objects: int, qcObjects: int, errors: int, quality: Quality)

  /** The four cells `metrics` reads from a production row: `row[kF]`, `row[kObj]`, `row[kQC]` and `row[kErr]`. */
  datatype Fig = Fig(frame: Option<string>, objects: Option<string>, qc: Option<string>, errors: Option<string>)

  function FigOf(row: Row, k: ProdKeys): Fig {
    Fig(Cell(row, k.frame), Cell(row, k.objects), Cell(row, k.qc), Cell(row, k.errors))
  }

  /** The cells of every production row, in order. */
  function Figs(prod: seq<Row>, k: ProdKeys): (r: seq<Fig>)
    ensures |r| == |prod| && forall j :: 0 <= j < |prod| ==> r[j] == FigOf(prod[j], k)
  {
    seq(|prod|, j requires 0 <= j < |prod| => FigOf(prod[j], k))
  }

  /** The row is counted as QC-checked. */
  predicate Checked(f: Fig) {
    QcEligible(TrimmedCell(f.qc))
  }

  /** `frames`: the distinct non-empty frame ids, in first-seen order. */
  function FrameSet(fs: seq<Fig>): seq<string> {
    if fs == [] then []
    else
      var f := FrameSet(fs[..|fs| - 1]);
      var x := TrimmedCell(fs[|fs| - 1].frame);
      if x != "" then AddNew(f, x) else f
  }

  function ObjectSum(fs: seq<Fig>): int {
    if fs == [] then 0 else ObjectSum(fs[..|fs| - 1]) + NumberCell(fs[|fs| - 1].objects)
  }

  /** Objects of the QC-checked rows. */
  function QcObjectSum(fs: seq<Fig>): int {
    if fs == [] then 0
    else QcObjectSum(fs[..|fs| - 1]) + (if Checked(fs[|fs| - 1]) then NumberCell(fs[|fs| - 1].objects) else 0)
  }

  /** Errors of the QC-checked rows. */
  function QcErrorSum(fs: seq<Fig>): int {
    if fs == [] then 0
    else QcErrorSum(fs[..|fs| - 1]) + (if Checked(fs[|fs| - 1]) then NumberCell(fs[|fs| - 1].errors) else 0)
  }

  /** The figures of the given production rows. */
  function MetricsFrom(fs: seq<Fig>): Metrics {
    var qc := QcObjectSum(fs);
    var err := QcErrorSum(fs);
    Metrics(|FrameSet(fs)|, ObjectSum(fs), qc, err, if qc > 0 then Rate(qc - err, qc) else NoQcRate)
  }

  function MetricsOf(rows: seq<Row>): Metrics {
    MetricsFrom(Figs(Filter(rows, IsProduction), ResolveKeys(AllKeys(rows))))
  }

  /** The running totals after one more production row. */
  lemma MetricsSnoc(fs: seq<Fig>, x: Fig)
    ensures FrameSet(fs + [x]) ==
      if TrimmedCell(x.frame) != "" then AddNew(FrameSet(fs), TrimmedCell(x.frame)) else FrameSet(fs)
    ensures ObjectSum(fs + [x]) == ObjectSum(fs) + NumberCell(x.objects)
    ensures QcObjectSum(fs + [x]) == QcObjectSum(fs) + if Checked(x) then NumberCell(x.objects) else 0
    ensures QcErrorSum(fs + [x]) == QcErrorSum(fs) + if Checked(x) then NumberCell(x.errors) else 0
  {
    assert (fs + [x])[..|fs|] == fs;
  }

  /** Row `i` of the `metrics` loop. */
  method MetricsRow(frames: seq<string>, totObj: int, qcObj: int, totErr: int, fs: seq<Fig>, i: nat)
    returns (frames': seq<string>, totObj': int, qcObj': int, totErr': int)
    requires i < |fs|
    requires frames == FrameSet(fs[..i]) && totObj == ObjectSum(fs[..i])
    requires qcObj == QcObjectSum(fs[..i]) && totErr == QcErrorSum(fs[..i])
    ensures frames' == FrameSet(fs[..i + 1]) && totObj' == ObjectSum(fs[..i + 1])
    ensures qcObj' == QcObjectSum(fs[..i + 1]) && totErr' == QcErrorSum(fs[..i + 1])
  {
    TakeSnoc(fs, i);
    MetricsSnoc(fs[..i], fs[i]);
    frames', totObj', qcObj', totErr' := frames, totObj, qcObj, totErr;
    var fId := TrimmedCell(fs[i].frame);
    if fId != "" {
      frames' := AddNew(frames, fId);
    }
    var objs := NumberCell(fs[i].objects);
    totObj' := totObj + objs;
    var qcN := TrimmedCell(fs[i].qc);
    if qcN != "" && qcN != "nil" && qcN != "0" {
      qcObj' := qcObj + objs;
      totErr' := totErr + NumberCell(fs[i].errors);
    }
  }

  /** The loop of `metrics` over the cells of the production rows. */
  method MetricsPass(fs: seq<Fig>) returns (m: Metrics)
    ensures m == MetricsFrom(fs)
  {
    var frames: seq<string> := [];
    var totObj, qcObj, totErr := 0, 0, 0;
    var i := 0;
    while i < |fs|
      invariant 0 <= i <= |fs|
      invariant frames == FrameSet(fs[..i]) && totObj == ObjectSum(fs[..i])
      invariant qcObj == QcObjectSum(fs[..i]) && totErr == QcErrorSum(fs[..i])
    {
      frames, totObj, qcObj, totErr := MetricsRow(frames, totObj, qcObj, totErr, fs, i);
      i := i + 1;
    }
    TakeAll(fs);
    m := Metrics(|frames|, totObj, qcObj, totErr, if qcObj > 0 then Rate(qcObj - totErr, qcObj) else NoQcRate);
  }

  /** `metrics`: the figures of the production rows. */
  method ComputeMetrics(rows: seq<Row>) returns (m: Metrics)
    ensures m == MetricsOf(rows)
  {
    var prod := Filter(rows, IsProduction);
    var k := ResolveKeys(AllKeys(rows));
    m := MetricsPass(Figs(prod, k));
  }
}
