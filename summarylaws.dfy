/**
 * What the summaries promise, stated on the model of `processedSummaries` and `metrics`:
 * who appears on which board and with what, how the attendance matrix is laid out, and
 * the bounds of the headline figures.
 */
module SummaryLaws {
  import opened Wrappers
  import opened Text
  import opened Seqs
  import opened Rows
  import opened Summaries
  import Ingest
  import SheetApi

  // ---------------------------------------------------------------------------
  // Boards

  /** A board lists every name entered on it, each once. */
  lemma {:induction false} NamesMembers(es: seq<Entry>, n: string)
    ensures NoDup(Names(es))
    ensures n in Names(es) <==> exists e :: e in es && e.name == n
  {
    if es != [] {
      var init, e := es[..|es| - 1], es[|es| - 1];
      assert es == init + [e];
      NamesMembers(init, n);
      if n in Names(init) {
        var x :| x in init && x.name == n;
        assert x in es;
      }
      if exists x :: x in es && x.name == n {
        var x :| x in es && x.name == n;
        assert x in init || x == e;
      }
    }
  }

  /** The entries of a board are what the views contribute to it. */
  lemma {:induction false} EntriesMembers(vs: seq<View>, b: Board, e: Entry)
    ensures e in BoardEntries(vs, b) <==> exists v :: v in vs && Contribution(v, b) == Some(e)
  {
    if vs != [] {
      var init, v := vs[..|vs| - 1], vs[|vs| - 1];
      assert vs == init + [v];
      EntriesMembers(init, b, e);
      if exists w :: w in vs && Contribution(w, b) == Some(e) {
        var w :| w in vs && Contribution(w, b) == Some(e);
        assert w in init || w == v;
      }
      if exists w :: w in init && Contribution(w, b) == Some(e) {
        var w :| w in init && Contribution(w, b) == Some(e);
        assert w in vs;
      }
    }
  }

  /**
   * A board lists each name once, and a name is on it exactly when some production row
   * contributes an entry for that name.
   */
  lemma BoardNames(vs: seq<View>, b: Board, n: string)
    ensures NoDup(Names(BoardEntries(vs, b)))
    ensures n in Names(BoardEntries(vs, b)) <==>
      exists v :: v in vs && Contribution(v, b).Some? && Contribution(v, b).value.name == n
  {
    var es := BoardEntries(vs, b);
    NamesMembers(es, n);
    if n in Names(es) {
      var e :| e in es && e.name == n;
      EntriesMembers(vs, b, e);
    }
    if exists v :: v in vs && Contribution(v, b).Some? && Contribution(v, b).value.name == n {
      var v :| v in vs && Contribution(v, b).Some? && Contribution(v, b).value.name == n;
      EntriesMembers(vs, b, Contribution(v, b).value);
    }
  }

  /** The names a row is read with are cleaned: each is empty or holds `@`. */
  predicate Cleaned(v: View) {
    (v.ann == "" || '@' in v.ann) && (v.usr == "" || '@' in v.usr)
  }

  lemma {:induction false} ViewsCleaned(rows: seq<Row>, k: ProdKeys)
    ensures forall v :: v in Views(rows, k) ==> Cleaned(v)
  {
    if rows != [] {
      var init, row := rows[..|rows| - 1], rows[|rows| - 1];
      ViewsCleaned(init, k);
      var v := ViewOf(row, k);
      assert v.ann == Clean(OrCell(Cell(row, k.ann), Cell(row, k.user)));
      assert Cleaned(v);
    }
  }

  /**
   * Board names hold `@`, so none is an array index, and `Object.entries` lists the
   * board in first-seen order.
   */
  lemma BoardNamesMail(rows: seq<Row>, k: ProdKeys, b: Board, n: string)
    requires n in Names(Entries(rows, k, b))
    ensures '@' in n && !IsArrayIndex(n)
  {
    var vs := Views(rows, k);
    ViewsCleaned(rows, k);
    BoardNames(vs, b, n);
    var v :| v in vs && Contribution(v, b).Some? && Contribution(v, b).value.name == n;
    assert Cleaned(v);
    var i :| 0 <= i < |n| && n[i] == '@';
    assert !IsDigit(n[i]);
  }

  /** Without a user column no row is read with a user name. */
  lemma {:induction false} ViewsNoUser(rows: seq<Row>, k: ProdKeys)
    requires !Truthy(k.user)
    ensures forall v :: v in Views(rows, k) ==> v.usr == ""
  {
    if rows != [] {
      var init, row := rows[..|rows| - 1], rows[|rows| - 1];
      ViewsNoUser(init, k);
      assert ViewOf(row, k).usr == "";
    }
  }

  lemma {:induction false} NoUserEntries(vs: seq<View>)
    requires forall v :: v in vs ==> v.usr == ""
    ensures BoardEntries(vs, Users) == [] && BoardEntries(vs, QcUsers) == []
  {
    if vs != [] {
      assert vs[|vs| - 1] in vs;
      assert forall v :: v in vs[..|vs| - 1] ==> v in vs;
      NoUserEntries(vs[..|vs| - 1]);
    }
  }

  /** Without a user column the user and QC-user boards stay empty. */
  lemma UsersNeedKey(rows: seq<Row>, k: ProdKeys)
    requires !Truthy(k.user)
    ensures Entries(rows, k, Users) == [] && Entries(rows, k, QcUsers) == []
  {
    ViewsNoUser(rows, k);
    NoUserEntries(Views(rows, k));
  }

  /** The board pairs where the first takes a subset of the second's rows, with the same objects. */
  predicate Within(b1: Board, b2: Board) {
    (b1 == QcAnnotators && b2 == Annotators) || (b1 == QcUsers && b2 == Users) ||
    (b1 == Annotators && b2 == Combined)
  }

  /**
   * A row on a QC board is on the matching production board, and a row on the annotator
   * board is on the combined board (`ann || usr` is `ann` when that is set), with the
   * same name and objects.
   */
  lemma ContributionWithin(v: View, b1: Board, b2: Board)
    requires Within(b1, b2)
    ensures Contribution(v, b1).Some? ==>
      Contribution(v, b2).Some? && Contribution(v, b2).value.name == Contribution(v, b1).value.name &&
      Contribution(v, b2).value.objects == Contribution(v, b1).value.objects
  {
  }

  lemma ObjectTotalOpt(es: seq<Entry>, o: Option<Entry>, n: string)
    ensures ObjectTotal(es + Opt(o), n) == ObjectTotal(es, n) + if o.Some? && o.value.name == n then o.value.objects else 0
    ensures Names(es + Opt(o)) == if o.Some? then AddNew(Names(es), o.value.name) else Names(es)
  {
    if o.Some? {
      AccSnoc(es, o.value, n);
    } else {
      assert es + Opt(o) == es;
    }
  }

  /**
   * Everyone on a QC board is on the matching production board, and everyone on the
   * annotator board is on the combined board; with non-negative object cells the first
   * board's objects never exceed the second's.
   */
  lemma BoardWithin(vs: seq<View>, b1: Board, b2: Board, n: string)
    requires Within(b1, b2)
    ensures n in Names(BoardEntries(vs, b1)) ==> n in Names(BoardEntries(vs, b2))
    ensures (forall v :: v in vs ==> v.objects >= 0) ==>
      ObjectTotal(BoardEntries(vs, b1), n) <= ObjectTotal(BoardEntries(vs, b2), n)
  {
    NamesWithin(vs, b1, b2, n);
    if forall v :: v in vs ==> v.objects >= 0 {
      NonNegativeOf(vs);
      ObjectsWithin(vs, b1, b2, n);
    }
  }

  lemma {:induction false} NamesWithin(vs: seq<View>, b1: Board, b2: Board, n: string)
    requires Within(b1, b2)
    ensures n in Names(BoardEntries(vs, b1)) ==> n in Names(BoardEntries(vs, b2))
    decreases |vs|
  {
    if vs != [] {
      var init, v := vs[..|vs| - 1], vs[|vs| - 1];
      NamesWithin(init, b1, b2, n);
      BoardEntriesSnoc(init, v, b1);
      BoardEntriesSnoc(init, v, b2);
      assert vs == init + [v];
      ObjectTotalOpt(BoardEntries(init, b1), Contribution(v, b1), n);
      ObjectTotalOpt(BoardEntries(init, b2), Contribution(v, b2), n);
      ContributionWithin(v, b1, b2);
    }
  }

  /** Every row's object cell is non-negative, stated row by row from the end. */
  predicate NonNegative(vs: seq<View>) {
    vs == [] || (NonNegative(vs[..|vs| - 1]) && vs[|vs| - 1].objects >= 0)
  }

  lemma {:induction false} NonNegativeOf(vs: seq<View>)
    requires forall v :: v in vs ==> v.objects >= 0
    ensures NonNegative(vs)
    decreases |vs|
  {
    if vs != [] {
      var init := vs[..|vs| - 1];
      assert forall x :: x in init ==> x in vs;
      NonNegativeOf(init);
    }
  }

  lemma {:induction false} ObjectsWithin(vs: seq<View>, b1: Board, b2: Board, n: string)
    requires Within(b1, b2) && NonNegative(vs)
    ensures ObjectTotal(BoardEntries(vs, b1), n) <= ObjectTotal(BoardEntries(vs, b2), n)
    decreases |vs|
  {
    if vs != [] {
      ObjectsWithin(vs[..|vs| - 1], b1, b2, n);
      ObjectsStep(vs, b1, b2, n);
    }
  }

  /** One more row keeps the first board's objects within the second's. */
  lemma ObjectsStep(vs: seq<View>, b1: Board, b2: Board, n: string)
    requires Within(b1, b2) && vs != [] && vs[|vs| - 1].objects >= 0
    requires ObjectTotal(BoardEntries(vs[..|vs| - 1], b1), n) <= ObjectTotal(BoardEntries(vs[..|vs| - 1], b2), n)
    ensures ObjectTotal(BoardEntries(vs, b1), n) <= ObjectTotal(BoardEntries(vs, b2), n)
  {
    var init, v := vs[..|vs| - 1], vs[|vs| - 1];
    var c1, c2 := Contribution(v, b1), Contribution(v, b2);
    assert BoardEntries(vs, b1) == BoardEntries(init, b1) + Opt(c1);
    assert BoardEntries(vs, b2) == BoardEntries(init, b2) + Opt(c2);
    ContributionWithin(v, b1, b2);
    assert c2.Some? ==> c2.value.objects == v.objects;
    TotalsStep(BoardEntries(init, b1), BoardEntries(init, b2), c1, c2, n);
  }

  /** Adding matching entries, or a non-negative one to the second list only, keeps the order of totals. */
  lemma TotalsStep(e1: seq<Entry>, e2: seq<Entry>, c1: Option<Entry>, c2: Option<Entry>, n: string)
    requires ObjectTotal(e1, n) <= ObjectTotal(e2, n)
    requires c1.Some? ==> c2.Some? && c2.value.name == c1.value.name && c2.value.objects == c1.value.objects
    requires c2.Some? ==> c2.value.objects >= 0
    ensures ObjectTotal(e1 + Opt(c1), n) <= ObjectTotal(e2 + Opt(c2), n)
  {
    ObjectTotalOpt(e1, c1, n);
    ObjectTotalOpt(e2, c2, n);
  }

  /** Everyone on the combined board is on the annotator board or on the user board. */
  lemma {:induction false} CombinedNames(vs: seq<View>, n: string)
    ensures n in Names(BoardEntries(vs, Combined)) ==>
      n in Names(BoardEntries(vs, Annotators)) || n in Names(BoardEntries(vs, Users))
  {
    if vs != [] {
      var init, v := vs[..|vs| - 1], vs[|vs| - 1];
      CombinedNames(init, n);
      ObjectTotalOpt(BoardEntries(init, Combined), Contribution(v, Combined), n);
      ObjectTotalOpt(BoardEntries(init, Annotators), Contribution(v, Annotators), n);
      ObjectTotalOpt(BoardEntries(init, Users), Contribution(v, Users), n);
    }
  }

  /** `frameSet`: the distinct non-empty frame ids entered for the name, each once. */
  lemma {:induction false} FramesMembers(es: seq<Entry>, n: string, x: string)
    ensures NoDup(Frames(es, n))
    ensures x in Frames(es, n) <==> x != "" && exists e :: e in es && e.name == n && e.frame == x
  {
    if es != [] {
      var init, e := es[..|es| - 1], es[|es| - 1];
      assert es == init + [e];
      FramesMembers(init, n, x);
      if exists y :: y in es && y.name == n && y.frame == x {
        var y :| y in es && y.name == n && y.frame == x;
        assert y in init || y == e;
      }
      if exists y :: y in init && y.name == n && y.frame == x {
        var y :| y in init && y.name == n && y.frame == x;
        assert y in es;
      }
    }
  }

  /** `FRAMECOUNT` is at most the number of entries. */
  lemma {:induction false} FramesAtMost(es: seq<Entry>, n: string)
    ensures |Frames(es, n)| <= |es|
  {
    if es != [] {
      FramesAtMost(es[..|es| - 1], n);
    }
  }

  // ---------------------------------------------------------------------------
  // Hourly rows

  /** `uniqueSheets`: the sheet of every hourly row, each once. */
  lemma {:induction false} SheetsMembers(rows: seq<Row>, s: string)
    ensures NoDup(Sheets(rows))
    ensures s in Sheets(rows) <==> exists row :: row in rows && IsHourly(row) && SheetOf(row) == s
  {
    if rows != [] {
      var init, row := rows[..|rows| - 1], rows[|rows| - 1];
      assert rows == init + [row];
      SheetsMembers(init, s);
      if exists r :: r in rows && IsHourly(r) && SheetOf(r) == s {
        var r :| r in rows && IsHourly(r) && SheetOf(r) == s;
        assert r in init || r == row;
      }
      if exists r :: r in init && IsHourly(r) && SheetOf(r) == s {
        var r :| r in init && IsHourly(r) && SheetOf(r) == s;
        assert r in rows;
      }
    }
  }

  /** Rows with an empty name leave no mark. */
  lemma {:induction false} MarksNamed(rows: seq<Row>)
    ensures forall m :: m in Marks(rows) ==> m.name != ""
  {
    if rows != [] {
      MarksNamed(rows[..|rows| - 1]);
    }
  }

  /** `empData` holds every named person once, in first-seen order. */
  lemma {:induction false} EmpKeys(ms: seq<Mark>, n: string)
    ensures NoDup(Keys(EmpTable(ms)))
    ensures n in Keys(EmpTable(ms)) <==> exists m :: m in ms && m.name == n
  {
    if ms != [] {
      var init, m := ms[..|ms| - 1], ms[|ms| - 1];
      assert ms == init + [m];
      EmpKeys(init, n);
      var t := EmpTable(init);
      if m.name !in Keys(t) {
        PutKeySet(t, m.name, Emp(m.sno, m.name, m.empCode));
        PutKeepsDistinct(t, m.name, Emp(m.sno, m.name, m.empCode));
      }
      if exists x :: x in ms && x.name == n {
        var x :| x in ms && x.name == n;
        assert x in init || x == m;
      }
      if exists x :: x in init && x.name == n {
        var x :| x in init && x.name == n;
        assert x in ms;
      }
    }
  }

  /** A person's serial number and code come from their first mark. */
  lemma {:induction false} EmpFirstSeen(ms: seq<Mark>, i: nat)
    requires i < |ms|
    requires forall j :: 0 <= j < i ==> ms[j].name != ms[i].name
    ensures Get(EmpTable(ms), ms[i].name) == Some(Emp(ms[i].sno, ms[i].name, ms[i].empCode))
  {
    var init, m := ms[..|ms| - 1], ms[|ms| - 1];
    var x := ms[i];
    var t := EmpTable(init);
    if i == |ms| - 1 {
      EmpKeys(init, x.name);
      assert forall y :: y in init ==> y.name != x.name;
      PutGet(t, x.name, Emp(x.sno, x.name, x.empCode), x.name);
    } else {
      assert forall j :: 0 <= j < i ==> init[j] == ms[j];
      EmpFirstSeen(init, i);
      if m.name !in Keys(t) {
        EmpKeys(init, x.name);
        assert init[i] == x;
        PutGet(t, m.name, Emp(m.sno, m.name, m.empCode), x.name);
      }
    }
  }

  /** The last mark for a person and a sheet sets the status there. */
  lemma {:induction false} LastStatusWins(ms: seq<Mark>, i: nat)
    requires i < |ms|
    requires forall j :: i < j < |ms| ==> ms[j].name != ms[i].name || ms[j].sheet != ms[i].sheet
    ensures LastStatus(ms, ms[i].name, ms[i].sheet) == Some(ms[i].status)
  {
    if i < |ms| - 1 {
      var init := ms[..|ms| - 1];
      assert forall j :: i < j < |init| ==> init[j] == ms[j];
      LastStatusWins(init, i);
    }
  }

  // ---------------------------------------------------------------------------
  // The attendance matrix

  /** Every person's row holds their serial number, name and code under the fixed headers. */
  lemma AttendanceIdentity(e: Emp, ms: seq<Mark>, name: string, sorted: seq<string>)
    requires NoDup(AttendanceHeaders(sorted))
    ensures Get(AttendanceRow(e, ms, name, sorted), "SNO") == Some(e.sno)
    ensures Get(AttendanceRow(e, ms, name, sorted), "NAME") == Some(e.name)
    ensures Get(AttendanceRow(e, ms, name, sorted), "EMP CODE") == Some(e.empCode)
  {
    var h, c := AttendanceHeaders(sorted), AttendanceCells(e, ms, name, sorted);
    assert h[0] == "SNO" && h[1] == "NAME" && h[2] == "EMP CODE";
    assert c[0] == e.sno && c[1] == e.name && c[2] == e.empCode;
    SheetApi.RowCell(h, c, |h|, 0);
    SheetApi.RowCell(h, c, |h|, 1);
    SheetApi.RowCell(h, c, |h|, 2);
  }

  /** Every person's row has a cell for every sheet: the last status there, or `NIL`. */
  lemma AttendanceCellValue(e: Emp, ms: seq<Mark>, name: string, sorted: seq<string>, j: nat)
    requires j < |sorted| && NoDup(AttendanceHeaders(sorted))
    ensures Get(AttendanceRow(e, ms, name, sorted), sorted[j]) == Some(StatusText(LastStatus(ms, name, sorted[j])))
  {
    var h, c := AttendanceHeaders(sorted), AttendanceCells(e, ms, name, sorted);
    AttendanceCellAt(e, ms, name, sorted, j);
    SheetApi.RowCell(h, c, |h|, 3 + j);
  }

  /** The sheet headers: the distinct hourly sheets, in date-key order. */
  lemma SortedSheetsFacts(rows: seq<Row>)
    ensures SortedBy(SortedSheets(rows), Ingest.SheetDateKey)
    ensures multiset(SortedSheets(rows)) == multiset(Sheets(rows))
    ensures NoDup(SortedSheets(rows))
    ensures forall s :: s in SortedSheets(rows) <==> s in Sheets(rows)
  {
    var sorted := SortedSheets(rows);
    SheetsMembers(rows, "");
    NoDupPermutation(sorted, Sheets(rows));
    forall s ensures s in sorted <==> s in Sheets(rows) {
      assert s in sorted <==> s in multiset(sorted);
      assert s in Sheets(rows) <==> s in multiset(Sheets(rows));
    }
  }

  /** No sheet name dates before an undated one: date keys are never negative. */
  lemma SheetKeyNonNegative(name: string)
    ensures Ingest.SheetDateKey(name) >= 0
  {
  }

  /** Sheets without a recognisable date come first. */
  lemma UndatedFirst(rows: seq<Row>, i: nat, j: nat)
    requires i < j < |SortedSheets(rows)|
    requires Ingest.SheetDateKey(SortedSheets(rows)[j]) == 0
    ensures Ingest.SheetDateKey(SortedSheets(rows)[i]) == 0
  {
    SortedSheetsFacts(rows);
    SheetKeyNonNegative(SortedSheets(rows)[i]);
  }

  /** The sort is stable: sheets with the same date key keep their first-seen order. */
  lemma SameDateKeepsOrder(rows: seq<Row>, key: int)
    ensures WithKey(SortedSheets(rows), Ingest.SheetDateKey, key) == WithKey(Sheets(rows), Ingest.SheetDateKey, key)
  {
    SortByStable(Sheets(rows), Ingest.SheetDateKey, key);
  }

  // ---------------------------------------------------------------------------
  // metrics

  /** `frames`: the distinct non-empty frame ids of all production rows, each once. */
  lemma {:induction false} FrameSetMembers(fs: seq<Fig>, x: string)
    ensures NoDup(FrameSet(fs))
    ensures x in FrameSet(fs) <==> x != "" && exists f :: f in fs && TrimmedCell(f.frame) == x
  {
    if fs != [] {
      var init, f := fs[..|fs| - 1], fs[|fs| - 1];
      assert fs == init + [f];
      FrameSetMembers(init, x);
      if exists g :: g in fs && TrimmedCell(g.frame) == x {
        var g :| g in fs && TrimmedCell(g.frame) == x;
        assert g in init || g == f;
      }
      if exists g :: g in init && TrimmedCell(g.frame) == x {
        var g :| g in init && TrimmedCell(g.frame) == x;
        assert g in fs;
      }
    }
  }

  lemma {:induction false} FrameSetAtMost(fs: seq<Fig>)
    ensures |FrameSet(fs)| <= |fs|
  {
    if fs != [] {
      FrameSetAtMost(fs[..|fs| - 1]);
    }
  }

  /** With non-negative object cells the QC objects are part of the total objects. */
  lemma {:induction false} QcWithinTotal(fs: seq<Fig>)
    requires forall i :: 0 <= i < |fs| ==> NumberCell(fs[i].objects) >= 0
    ensures 0 <= QcObjectSum(fs) <= ObjectSum(fs)
  {
    if fs != [] {
      var init := fs[..|fs| - 1];
      assert forall i :: 0 <= i < |init| ==> init[i] == fs[i];
      QcWithinTotal(init);
    }
  }

  /** Without a QC-checked row there are no QC objects or errors, and the rate is `'0%'`. */
  lemma {:induction false} NoCheckedRows(fs: seq<Fig>)
    requires forall i :: 0 <= i < |fs| ==> !Checked(fs[i])
    ensures QcObjectSum(fs) == 0 && QcErrorSum(fs) == 0 && MetricsFrom(fs).quality == NoQcRate
  {
    if fs != [] {
      var init := fs[..|fs| - 1];
      assert forall i :: 0 <= i < |init| ==> init[i] == fs[i];
      NoCheckedRows(init);
    }
  }

  /** The headline figures: frames at most the production rows, QC objects within the total. */
  lemma MetricsBounds(fs: seq<Fig>)
    ensures MetricsFrom(fs).frames <= |fs|
    ensures (forall i :: 0 <= i < |fs| ==> NumberCell(fs[i].objects) >= 0) ==>
      0 <= MetricsFrom(fs).qcObjects <= MetricsFrom(fs).objects
  {
    FrameSetAtMost(fs);
    if forall i :: 0 <= i < |fs| ==> NumberCell(fs[i].objects) >= 0 {
      QcWithinTotal(fs);
    }
  }
}
