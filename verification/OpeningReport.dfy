/** The opening journals line by line, and what the balance sheet shows after a run of the migration. */
module OpeningReport {
  import opened Results
  import opened Sums
  import opened Ledger
  import opened SubLedger
  import opened Runs
  import opened Reports
  import opened Audit
  import opened Opening

  /** A posted line of these amounts on the account with this code, stamped when the row was created. */
  ghost predicate LineOn(chart: seq<Account>, l: Line, code: string, debit: int, credit: int, at: int) {
    && l.code == code && Named(chart, l)
    && l.debit == debit && l.credit == credit
    && l.posted && l.at == Some(at)
  }

  /**
   The creation journal of a row: posted when the row was created, in its store,
   with one line that debits the first account by the row's amount and one that
   credits the second.
   */
  ghost predicate Opens(chart: seq<Account>, j: Journal, kind: RefKind, r: Row, debited: string, credited: string) {
    && j.kind == kind && j.ref == Some(r.id) && j.store == r.store && j.posted && j.at == Some(r.createdAt)
    && |j.lines| == 2
    && ((LineOn(chart, j.lines[0], debited, r.amount, 0, r.createdAt) && LineOn(chart, j.lines[1], credited, 0, r.amount, r.createdAt))
        || (LineOn(chart, j.lines[1], debited, r.amount, 0, r.createdAt) && LineOn(chart, j.lines[0], credited, 0, r.amount, r.createdAt)))
  }

  /** Exactly one journal of the kind names the row, and it is that one. */
  ghost predicate OpenedExactlyBy(js: seq<Journal>, chart: seq<Account>, kind: RefKind, r: Row, debited: string, credited: string) {
    exists i :: 0 <= i < |js| && Opens(chart, js[i], kind, r, debited, credited)
                && forall k :: 0 <= k < |js| && js[k].kind == kind && js[k].ref == Some(r.id) ==> k == i
  }

  lemma ArLinesAre(s: State, j: Journal, r: Row)
    requires FullChart(s) && IsOpeningOf(j, ArSide(s.chart), r)
    ensures Opens(s.chart, j, ReceivableRef, r, "1100", "4000")
  {
    var recv, rev := AccountByCode(s.chart, RECEIVABLE).value, AccountByCode(s.chart, REVENUE).value;
    assert recv in s.chart && rev in s.chart;
    assert |j.lines| == 2;
  }

  lemma ApLinesAre(s: State, j: Journal, r: Row)
    requires FullChart(s) && r in s.ap && IsOpeningOf(j, ApSide(s.chart), r)
    ensures Opens(s.chart, j, PayableRef, r, ExpenseCode(r.category), "2000")
  {
    var pay, exp := AccountByCode(s.chart, PAYABLE).value, AccountByCode(s.chart, ExpenseCode(r.category)).value;
    assert pay in s.chart && exp in s.chart;
    assert |j.lines| == 2;
  }

  /**
   One run gives each row that had no creation journal exactly one: a receivable
   debits 1100 and credits 4000, a payable debits its category's account and
   credits 2000, each by the row's amount, on posted lines stamped at the row's
   creation.
   */
  lemma RowsAreOpened(s: State, r: Row)
    requires Ready(s)
    ensures r in s.ar && (forall j :: j in s.journals ==> j.kind != ReceivableRef || j.ref != Some(r.id)) ==>
      OpenedExactlyBy(Migrate(s).journals, s.chart, ReceivableRef, r, "1100", "4000")
    ensures r in s.ap && (forall j :: j in s.journals ==> j.kind != PayableRef || j.ref != Some(r.id)) ==>
      OpenedExactlyBy(Migrate(s).journals, s.chart, PayableRef, r, ExpenseCode(r.category), "2000")
  {
    EachRowOpenedOnce(s, r);
    var js := Migrate(s).journals;
    if r in s.ar && !Opened(s.journals, ReceivableRef, r.id) {
      OnceIsExactly(s, js, ArSide(s.chart), r, "1100", "4000");
    }
    if r in s.ap && !Opened(s.journals, PayableRef, r.id) {
      OnceIsExactly(s, js, ApSide(s.chart), r, ExpenseCode(r.category), "2000");
    }
  }

  lemma OnceIsExactly(s: State, js: seq<Journal>, side: Side, r: Row, debited: string, credited: string)
    requires FullChart(s) && OpenedOnce(js, side, r)
    requires (side == ArSide(s.chart) && debited == "1100" && credited == "4000")
          || (side == ApSide(s.chart) && r in s.ap && debited == ExpenseCode(r.category) && credited == "2000")
    ensures OpenedExactlyBy(js, s.chart, side.kind, r, debited, credited)
  {
    var i :| 0 <= i < |js| && IsOpeningOf(js[i], side, r) && forall k :: 0 <= k < |js| && Creates(js[k], side.kind, r.id) ==> k == i;
    if side == ArSide(s.chart) && debited == "1100" {
      ArLinesAre(s, js[i], r);
    } else {
      ApLinesAre(s, js[i], r);
    }
    forall k | 0 <= k < |js| && js[k].kind == side.kind && js[k].ref == Some(r.id)
      ensures k == i
    {
      assert Creates(js[k], side.kind, r.id);
    }
  }

  // ---- charts that lack an account, and journals that look like opening entries ----

  /** A journal is taken for the opening journal of a row by its kind, its reference and the end of its description. */
  lemma TakenForOpening(rows: seq<Row>, kind: RefKind, j: Journal, head: string)
    requires j.desc == head + "(opening entry)"
    ensures Joined(rows, kind, j).Some? <==> j.kind == kind && exists r :: r in rows && j.ref == Some(r.id)
    ensures Joined(rows, kind, j).Some? ==> Joined(rows, kind, j).value in rows && j.ref == Some(Joined(rows, kind, j).value.id)
  {
    assert j.desc[|j.desc| - |MARK|..] == MARK;
  }

  /** Without 1100 or without 4000 the receivables half opens nothing. */
  lemma NoReceivablesOpened(s: State)
    requires NoMarks(s.journals, s.ar, ReceivableRef)
    requires (forall a :: a in s.chart ==> a.code != "1100") || (forall a :: a in s.chart ==> a.code != "4000")
    ensures OpenSide(s, s.ar, ArSide(s.chart)) == s
  {
    NothingInserted(s, s.ar, ArSide(s.chart));
  }

  /** Without 2000 the payables half opens nothing. */
  lemma NoPayablesOpened(s: State)
    requires NoMarks(s.journals, s.ap, PayableRef) && forall a :: a in s.chart ==> a.code != "2000"
    ensures OpenSide(s, s.ap, ApSide(s.chart)) == s
  {
    NothingInserted(s, s.ap, ApSide(s.chart));
  }

  lemma NothingInserted(s: State, rows: seq<Row>, side: Side)
    requires !side.headers && NoMarks(s.journals, rows, side.kind)
    ensures OpenSide(s, rows, side) == s
  {
    OpenSideIs(s, rows, side);
    assert s.journals + [] == s.journals;
    MapSame(s.journals, Filled(rows, side));
  }

  /**
   The payables half asks only for 2000: a payable whose category's account is
   missing gets an opening journal all the same, with its credit alone. Its
   journal balances exactly when that account is there or the amount is zero.
   */
  lemma PayableOpensBalancedIff(s: State, r: Row)
    requires UniqueRows(s.ap) && r in s.ap && !Opened(s.journals, PayableRef, r.id) && AccountByCode(s.chart, "2000").Some?
    ensures var js := OpenSide(s, s.ap, ApSide(s.chart)).journals;
            exists i :: 0 <= i < |js| && Creates(js[i], PayableRef, r.id) && js[i].posted
                        && (JNet()(js[i]) == 0 <==> r.amount == 0 || exists a :: a in s.chart && a.code == ExpenseCode(r.category))
  {
    var side := ApSide(s.chart);
    SideOpensOnce(s, s.ap, side, r);
    var js := OpenSide(s, s.ap, side).journals;
    var i :| 0 <= i < |js| && IsOpeningOf(js[i], side, r) && forall k :: 0 <= k < |js| && Creates(js[k], side.kind, r.id) ==> k == i;
    PayableLinesNet(s, r, Some(r.createdAt));
  }

  lemma PayableLinesNet(s: State, r: Row, at: Option<int>)
    requires AccountByCode(s.chart, "2000").Some?
    ensures Sum(LinesFor(ApSide(s.chart), r, at), Net()) == if AccountByCode(s.chart, ExpenseCode(r.category)).Some? then 0 else -r.amount
  {
    var x := CreditLine(AccountByCode(s.chart, PAYABLE), "")(r, at)[0];
    match AccountByCode(s.chart, ExpenseCode(r.category))
    case None =>
      assert LinesFor(ApSide(s.chart), r, at) == [x] && [x][1..] == [];
    case Some(_) =>
      PairLines(x, ExpenseLine(s.chart)(r, at)[0], Net());
  }

  // ---- what a report counts after the run ----

  /** The lines a half inserts are posted and stamped like their journal. */
  ghost predicate StampedAlike(side: Side, rows: seq<Row>) {
    forall r, at, l :: r in rows && l in LinesFor(side, r, at) ==> l.posted && l.at == at
  }

  lemma ArStamps(chart: seq<Account>, rows: seq<Row>)
    ensures StampedAlike(ArSide(chart), rows)
  {
  }

  lemma ApStamps(chart: seq<Account>, rows: seq<Row>)
    ensures StampedAlike(ApSide(chart), rows)
  {
  }

  lemma SideIsCovered(s: State, rows: seq<Row>, side: Side, at: int)
    requires Covered(s.journals, at) && NoMarks(s.journals, rows, side.kind) && UniqueRows(rows) && StampedAlike(side, rows)
    requires forall r :: r in rows ==> r.createdAt <= at
    ensures Covered(OpenSide(s, rows, side).journals, at)
  {
    OpenSideIs(s, rows, side);
    var hs, js := NewHeaders(s, rows, side), OpenSide(s, rows, side).journals;
    HeadersAre(s.journals, rows, side, s.next);
    forall j, l | j in js && l in j.lines
      ensures UpTo(at)(l)
    {
      var k :| 0 <= k < |js| && js[k] == j;
      var b := (s.journals + hs)[k];
      assert j == Filled(rows, side)(b);
      if k < |s.journals| {
        assert b in s.journals;
      } else {
        assert b in hs;
        HeaderIsCovered(rows, side, b, l, at);
      }
    }
  }

  lemma HeaderIsCovered(rows: seq<Row>, side: Side, h: Journal, l: Line, at: int)
    requires UniqueRows(rows) && StampedAlike(side, rows) && forall r :: r in rows ==> r.createdAt <= at
    requires exists r :: r in rows && h == OpeningHeader(side, r, h.id)
    requires l in Filled(rows, side)(h).lines
    ensures UpTo(at)(l)
  {
    var r :| r in rows && h == OpeningHeader(side, r, h.id);
    JoinedHeader(rows, side, r, h.id);
    assert [] + LinesFor(side, r, h.at) == LinesFor(side, r, h.at);
    assert l in LinesFor(side, r, h.at);
  }

  lemma MigratedIsCovered(s: State, at: int)
    requires Ready(s) && Covered(s.journals, at)
    requires (forall r :: r in s.ar ==> r.createdAt <= at) && (forall r :: r in s.ap ==> r.createdAt <= at)
    ensures Covered(Migrate(s).journals, at)
  {
    ArStamps(s.chart, s.ar);
    ApStamps(s.chart, s.ap);
    SideIsCovered(s, s.ar, ArSide(s.chart), at);
    ArHalfLeavesReady(s);
    SideIsCovered(OpenSide(s, s.ar, ArSide(s.chart)), s.ap, ApSide(s.chart), at);
  }

  /**
   On the balance sheet, at a cut-off not before the last line and the last row:
   one run takes off each difference the amounts of the rows it opens, and leaves
   none when only payments had been booked.
   */
  lemma MigrateClosesTheReport(s: State, at: int)
    requires Ready(s) && Covered(s.journals, at)
    requires (forall r :: r in s.ar ==> r.createdAt <= at) && (forall r :: r in s.ap ==> r.createdAt <= at)
    ensures ArDiff(Migrate(s), at, None) == ArDiff(s, at, None) - Sum(s.ar, Unopened(s.journals, ReceivableRef))
    ensures ApDiff(Migrate(s), at, None) == ApDiff(s, at, None) - Sum(s.ap, Unopened(s.journals, PayableRef))
    ensures OnlyPaymentsBooked(s) ==> ArDiff(Migrate(s), at, None) == 0 && ApDiff(Migrate(s), at, None) == 0
  {
    MigrateMovesGaps(s);
    MigratedIsCovered(s, at);
    ReportShowsTheGaps(s, at);
    ReportShowsTheGaps(Migrate(s), at);
    if OnlyPaymentsBooked(s) {
      MigrateClosesGaps(s);
    }
  }
}
