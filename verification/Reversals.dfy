/**
 What healing duplicates writes, journal by journal, and what it does to books
 that requests have reached: there the payment ledger and the payment journals
 agree row by row, so the difference moves by the deleted amounts.
 */
module Reversals {
  import opened Results
  import opened Sums
  import opened Ledger
  import opened Posting
  import opened SubLedger
  import opened Sales
  import opened SalePosting
  import opened Taxes
  import opened Runs
  import opened Reach
  import opened History
  import opened Heal

  /** A posted payment journal of a row that has an older row of its number and amount. */
  ghost predicate PaysTwin(s: State, p: Journal) {
    && p.posted && p.kind == ArPaymentRef
    && exists r :: r in s.ar && p.ref == Some(r.id) && OlderTwin(s.ar, r)
  }

  /** A posted journal of `now` in this store that names `p` and swaps the sides of each of its lines. */
  ghost predicate TurnsBack(j: Journal, p: Journal, store: Option<nat>, now: int) {
    && j.kind == ArReversalRef && j.ref == Some(p.id) && j.posted && j.at == Some(now) && j.store == store
    && |j.lines| == |p.lines|
    && forall k :: 0 <= k < |p.lines| ==>
         && j.lines[k].account == p.lines[k].account && j.lines[k].code == p.lines[k].code
         && j.lines[k].debit == p.lines[k].credit && j.lines[k].credit == p.lines[k].debit
         && j.lines[k].posted && j.lines[k].at == Some(now)
  }

  // ---- what each reversal is ----

  ghost predicate TurnsSome(j: Journal, js: seq<Journal>, rows: seq<Row>, now: int) {
    exists p, r :: p in js && r in rows && p.posted && p.kind == ArPaymentRef && p.ref == Some(r.id) && TurnsBack(j, p, r.store, now)
  }

  lemma ReversalTurns(p: Journal, id: nat, d: Row, now: int)
    ensures TurnsBack(Reversal(p, id, d, now), p, d.store, now)
  {
  }

  lemma {:induction false} AddedTurn(s: State, ps: seq<Journal>, d: Row, now: int, js: seq<Journal>, rows: seq<Row>)
    requires d in rows && forall p :: p in ps ==> p in js && p.posted && p.kind == ArPaymentRef && p.ref == Some(d.id)
    ensures var js' := AddReversals(s, ps, d, now).journals;
            s.journals <= js' && forall k :: |s.journals| <= k < |js'| ==> TurnsSome(js'[k], js, rows, now)
    decreases |ps|
  {
    if ps != [] {
      var j := Reversal(ps[0], s.next, d, now);
      assert ps[0] in ps;
      ReversalTurns(ps[0], s.next, d, now);
      assert TurnsSome(j, js, rows, now);
      AddedTurn(s.(journals := s.journals + [j], next := s.next + 1), ps[1..], d, now, js, rows);
    }
  }

  lemma {:induction false} AllTurn(s: State, js: seq<Journal>, dupes: seq<Row>, now: int, rows: seq<Row>)
    requires forall d :: d in dupes ==> d in rows
    ensures var js' := HealAll(s, js, dupes, now).journals;
            s.journals <= js' && forall k :: |s.journals| <= k < |js'| ==> TurnsSome(js'[k], js, rows, now)
    decreases |dupes|
  {
    if dupes != [] {
      var d, s1 := dupes[0], HealOne(s, js, dupes[0], now);
      assert d in dupes;
      FilterIn(js, PaysOff(d.id));
      AddedTurn(s, PaymentJournals(js, d.id), d, now, js, rows);
      AllTurn(s1, js, dupes[1..], now, rows);
      var js' := HealAll(s1, js, dupes[1..], now).journals;
      forall k | |s.journals| <= k < |js'|
        ensures TurnsSome(js'[k], js, rows, now)
      {
        assert k < |s1.journals| ==> js'[k] == s1.journals[k];
      }
    }
  }

  // ---- how often each journal is reversed ----

  function IsIt(id: nat): Journal -> int {
    (j: Journal) => if j.id == id then 1 else 0
  }

  function Naming(id: nat): Journal -> int {
    (j: Journal) => if j.kind == ArReversalRef && j.ref == Some(id) then -1 else 0
  }

  /** The reversals that name a journal. */
  function NamingCount(id: nat): Journal -> int {
    (j: Journal) => if j.kind == ArReversalRef && j.ref == Some(id) then 1 else 0
  }

  lemma NamingTakesBack(id: nat, now: int)
    ensures TakesBack(Naming(id), IsIt(id), now)
  {
  }

  lemma OwnJournal(js: seq<Journal>, p: Journal, d: Row, g: Journal -> int)
    requires UniqueJournals(js) && p in js && forall j :: j in js && j.id != p.id ==> g(j) == 0
    ensures Sum(PaymentJournals(js, d.id), g) == if p.posted && p.kind == ArPaymentRef && p.ref == Some(d.id) then g(p) else 0
  {
    var mine := p.posted && p.kind == ArPaymentRef && p.ref == Some(d.id);
    var f := (j: Journal) => if PaysOff(d.id)(j) then g(j) else 0;
    FilterSum(js, PaysOff(d.id), g, f);
    var i :| 0 <= i < |js| && js[i] == p;
    forall k | 0 <= k < |js| && k != i
      ensures f(js[k]) == 0
    {
      assert js[k] in js;
    }
    SumOnly(js, i, f);
  }

  /** A figure of one journal only is taken back once when it pays off a row with an older twin, and never otherwise. */
  lemma TakenBackOnce(s: State, dupes: seq<Row>, p: Journal, g: Journal -> int)
    requires UniqueRows(s.ar) && UniqueJournals(s.journals) && Finds(s.ar, dupes) && NoReversals(s.journals) && p in s.journals
    requires forall j :: j in s.journals && j.id != p.id ==> g(j) == 0
    ensures Sum(dupes, Off(s.journals, g)) == if PaysTwin(s, p) then g(p) else 0
  {
    var off := Off(s.journals, g);
    forall d | d in dupes
      ensures off(d) == if p.posted && p.kind == ArPaymentRef && p.ref == Some(d.id) then g(p) else 0
    {
      OwnJournal(s.journals, p, d, g);
    }
    if PaysTwin(s, p) {
      var r :| r in s.ar && p.ref == Some(r.id) && OlderTwin(s.ar, r);
      assert r in dupes;
      var i :| 0 <= i < |dupes| && dupes[i] == r;
      SumOnly(dupes, i, off);
    } else {
      forall d | d in dupes
        ensures off(d) == 0
      {
        assert d in s.ar && OlderTwin(s.ar, d);
      }
      SumZero(dupes, off);
    }
  }

  lemma {:induction false} CountOfNaming(js: seq<Journal>, id: nat)
    ensures Sum(js, NamingCount(id)) == -Sum(js, Naming(id))
    ensures Sum(js, NamingCount(id)) >= 0
    ensures Sum(js, NamingCount(id)) == 0 ==> forall j :: j in js && j.kind == ArReversalRef ==> j.ref != Some(id)
  {
    if js != [] {
      CountOfNaming(js[1..], id);
      assert forall j :: j in js <==> j == js[0] || j in js[1..];
    }
  }

  /**
   With no reversals beforehand, journal by journal: a posted payment journal of
   a row that has an older row of its number and amount is named by exactly one
   reversal, which brings every account back to zero; any other journal is named
   by none. What is written is posted now, in the duplicate's store, with the
   sides of the lines swapped, and everything else stays.
   */
  lemma HealsExactly(s: State, dupes: seq<Row>, now: int, p: Journal, a: nat)
    requires UniqueRows(s.ar) && UniqueJournals(s.journals) && Finds(s.ar, dupes) && NoReversals(s.journals) && p in s.journals
    ensures var js' := Heal.Heal(s, dupes, now).journals;
            && s.journals <= js'
            && (forall k :: |s.journals| <= k < |js'| ==> TurnsSome(js'[k], s.journals, s.ar, now))
            && Sum(js', NamingCount(p.id)) == (if PaysTwin(s, p) then 1 else 0)
            && (PaysTwin(s, p) ==> JOn(a)(p) + Sum(js', ReversalOn(p.id, a)) == 0)
            && (!PaysTwin(s, p) ==> forall j :: j in js' && j.kind == ArReversalRef ==> j.ref != Some(p.id))
  {
    var js' := Heal.Heal(s, dupes, now).journals;
    AllTurn(s, s.journals, dupes, now, s.ar);
    NamingTakesBack(p.id, now);
    HealAllSum(s, s.journals, dupes, now, Naming(p.id), IsIt(p.id));
    TakenBackOnce(s, dupes, p, IsIt(p.id));
    SumZero(s.journals, Naming(p.id));
    CountOfNaming(js', p.id);
    ReversalTakesBack(p.id, a, now);
    HealAllSum(s, s.journals, dupes, now, ReversalOn(p.id, a), Itself(p.id, a));
    TakenBackOnce(s, dupes, p, Itself(p.id, a));
    SumZero(s.journals, ReversalOn(p.id, a));
  }

  // ---- the figures of a run ----

  /** A figure of the posted payment journals of rows with an older twin. */
  ghost function OfTwins(s: State, g: Journal -> int): Journal -> int {
    (j: Journal) => if PaysTwin(s, j) then g(j) else 0
  }

  function PaysIt(d: Row, j: Journal): bool {
    j.posted && j.kind == ArPaymentRef && j.ref == Some(d.id)
  }

  function PaymentValue(g: Journal -> int, d: Row, j: Journal): int {
    if PaysIt(d, j) then g(j) else 0
  }

  function PaymentGrid(g: Journal -> int): (Row, Journal) -> int {
    (d: Row, j: Journal) => PaymentValue(g, d, j)
  }

  lemma EachOnce(s: State, dupes: seq<Row>, g: Journal -> int, j: Journal)
    requires UniqueRows(s.ar) && Finds(s.ar, dupes)
    ensures Sum(dupes, Across(PaymentGrid(g), j)) == if PaysTwin(s, j) then g(j) else 0
  {
    var f := Across(PaymentGrid(g), j);
    if PaysTwin(s, j) {
      var r :| r in s.ar && j.ref == Some(r.id) && OlderTwin(s.ar, r);
      assert r in dupes;
      var i :| 0 <= i < |dupes| && dupes[i] == r;
      SumOnly(dupes, i, f);
    } else {
      forall d | d in dupes
        ensures f(d) == 0
      {
        assert d in s.ar && OlderTwin(s.ar, d);
      }
      SumZero(dupes, f);
    }
  }

  /** With no reversals beforehand, any figure of the processed payment journals, read off the journals. */
  lemma FigureOfTwins(s: State, dupes: seq<Row>, g: Journal -> int)
    requires UniqueRows(s.ar) && Finds(s.ar, dupes) && NoReversals(s.journals)
    ensures Sum(dupes, Off(s.journals, g)) == Sum(s.journals, OfTwins(s, g))
  {
    var grid := PaymentGrid(g);
    forall d | d in dupes
      ensures Off(s.journals, g)(d) == RowSum(s.journals, grid)(d)
    {
      FilterSum(s.journals, PaysOff(d.id), g, Along(grid, d));
    }
    SumSame(dupes, Off(s.journals, g), RowSum(s.journals, grid));
    SumSwap(dupes, s.journals, grid);
    forall j | j in s.journals
      ensures ColSum(dupes, grid)(j) == OfTwins(s, g)(j)
    {
      EachOnce(s, dupes, g, j);
    }
    SumSame(s.journals, ColSum(dupes, grid), OfTwins(s, g));
  }

  /**
   With no reversals beforehand: 1100 gets back what the posted payment journals of
   the rows with an older twin had put on it, the difference moves by that less
   their balances, and the dry run's figure is minus the change to 1100.
   */
  lemma HealMovesExactly(s: State, dupes: seq<Row>, now: int, recv: Account)
    requires ChartOk(s.chart) && LinesNamed(s.chart, s.journals) && AccountByCode(s.chart, RECEIVABLE) == Some(recv)
    requires UniqueRows(s.ar) && Finds(s.ar, dupes) && NoReversals(s.journals)
    ensures var s', back := Heal.Heal(s, dupes, now), Sum(s.journals, OfTwins(s, JOn(recv.id)));
            && NetOn(s', RECEIVABLE) == NetOn(s, RECEIVABLE) - back
            && ArGap(s') == ArGap(s) - Sum(dupes, Balance()) + back
            && Sum(dupes, Off(s.journals, ReceivableByCode())) == back
  {
    HealMovesGap(s, dupes, now, recv);
    FigureOfTwins(s, dupes, JOn(recv.id));
    SumSame(dupes, Gone(s.journals), Balance());
    DryRunTellsTheChange(s, dupes, now, recv);
  }

  // ---- which rows go, whatever was reversed before ----

  /** A reversal names one of the row's posted payment journals, or the row itself when it has none. */
  ghost predicate Skipped(js: seq<Journal>, r: Row) {
    if exists p :: p in js && p.posted && p.kind == ArPaymentRef && p.ref == Some(r.id)
    then exists p, j :: p in js && p.posted && p.kind == ArPaymentRef && p.ref == Some(r.id)
                        && j in js && j.kind == ArReversalRef && j.ref == Some(p.id)
    else exists j :: j in js && j.kind == ArReversalRef && j.ref == Some(r.id)
  }

  lemma SkippedIsReversed(js: seq<Journal>, r: Row)
    ensures Reversed(js, r) <==> Skipped(js, r)
  {
    var ps := PaymentJournals(js, r.id);
    FilterIn(js, PaysOff(r.id));
    if ps != [] {
      assert ps[0] in ps;
    }
    forall j | j in js && j.kind == ArReversalRef
      ensures NamesPayment(js, r, j) <==> if ps == [] then j.ref == Some(r.id) else exists p :: p in ps && j.ref == Some(p.id)
    {
    }
    assert (ps != []) <==> exists p :: p in js && p.posted && p.kind == ArPaymentRef && p.ref == Some(r.id);
  }

  /** From any books: a row goes exactly when it has an older row of its number and amount and is not skipped. */
  lemma RowsThatGo(s: State, dupes: seq<Row>, now: int, r: Row)
    requires UniqueRows(s.ar) && Finds(s.ar, dupes) && r in s.ar
    ensures r !in Heal.Heal(s, dupes, now).ar <==> OlderTwin(s.ar, r) && !Skipped(s.journals, r)
  {
    HealAllRows(s, s.journals, dupes, now);
    FilterIn(s.ar, Kept(s.journals, dupes));
    DeletedExactly(s.ar, s.journals, dupes, r);
    SkippedIsReversed(s.journals, r);
  }

  // ---- books that requests have reached ----

  /** What the posted payment journals of a row book on an account. */
  function PaidOff(a: nat, row: nat): Journal -> int {
    (j: Journal) => if j.posted && j.kind == ArPaymentRef && j.ref == Some(row) then Sum(j.lines, OnAccount(a)) else 0
  }

  /** Row by row, the payment ledger says what the payment journals credit to 1100. */
  ghost predicate LedgerAgrees(s: State, recv: nat) {
    && (forall row: nat :: Sum(s.arPays, PaidOn(row)) == -Sum(s.journals, PaidOff(recv, row)))
    && NoReversals(s.journals)
  }

  ghost predicate OnlyReceivable(chart: seq<Account>, recv: Account) {
    recv.code == RECEIVABLE && forall b :: b in chart ==> (b.id == recv.id <==> b.code == RECEIVABLE)
  }

  lemma OtherJournalAgrees(s: State, s': State, j: Journal, recv: nat)
    requires LedgerAgrees(s, recv) && s'.arPays == s.arPays && s'.journals == s.journals + [j]
    requires j.kind != ArPaymentRef && j.kind != ArReversalRef
    ensures LedgerAgrees(s', recv)
  {
    forall row: nat
      ensures Sum(s'.arPays, PaidOn(row)) == -Sum(s'.journals, PaidOff(recv, row))
    {
      SumAppend(s.journals, j, PaidOff(recv, row));
    }
  }

  lemma RetagAgrees(s: State, s': State, m: Journal -> Journal, recv: nat)
    requires LedgerAgrees(s, recv) && s'.arPays == s.arPays && s'.journals == Map(s.journals, m)
    requires forall j :: m(j) == j.(store := m(j).store)
    ensures LedgerAgrees(s', recv)
  {
    forall row: nat
      ensures Sum(s'.arPays, PaidOn(row)) == -Sum(s'.journals, PaidOff(recv, row))
    {
      SumMap(s.journals, m, PaidOff(recv, row), PaidOff(recv, row));
    }
    forall j' | j' in s'.journals
      ensures j'.kind != ArReversalRef
    {
      var k :| 0 <= k < |s'.journals| && s'.journals[k] == j';
      assert s.journals[k] in s.journals;
    }
  }

  lemma ReceiptAgrees(s: State, id: nat, x: real, now: int, recv: Account)
    requires LedgerAgrees(s, recv.id) && OnlyReceivable(s.chart, recv) && PayReceivable(s, id, x, false, now).Ok?
    ensures LedgerAgrees(PayReceivable(s, id, x, false, now).value, recv.id)
  {
    var s' := PayReceivable(s, id, x, false, now).value;
    var i, cash, account, h, desc := ReceiptShape(s, id, x, false, now);
    var j := NewJournal(s.next + 1, h, Pair(cash, account, Round(x), desc, desc, now), now);
    CodesDiffer();
    PairNet(cash, account, Round(x), desc, desc, now, recv.id);
    forall row: nat
      ensures Sum(s'.arPays, PaidOn(row)) == -Sum(s'.journals, PaidOff(recv.id, row))
    {
      SumAppend(s.arPays, Payment(s.next, id, Round(x)), PaidOn(row));
      SumAppend(s.journals, j, PaidOff(recv.id, row));
    }
  }

  lemma DocumentAgrees(s: State, op: Op, recv: Account)
    requires LedgerAgrees(s, recv.id) && OnlyReceivable(s.chart, recv) && Document(op) && Step(s, op).Ok?
    ensures LedgerAgrees(Next(s, op), recv.id)
  {
    match op
    case OpenReceivable(number, amount, store, now) =>
      var acc, rev, h, dd, cd := ReceivableShape(s, number, amount, store, now);
      OtherJournalAgrees(s, Next(s, op), NewJournal(s.next + 1, h, Pair(acc, rev, Round(amount), dd, cd, now), now), recv.id);
    case OpenPayable(number, amount, store, category, now) =>
      var exp, pay, h := PayableShape(s, number, amount, store, category, now);
      OtherJournalAgrees(s, Next(s, op), NewJournal(s.next + 1, h, Pair(exp, pay, Round(amount), number, number, now), now), recv.id);
    case ReceivePayment(row, amount, now) => ReceiptAgrees(s, row, amount, now, recv);
    case MakePayment(row, amount, now) =>
      var i, pay, cash, h, desc := DisbursementShape(s, row, amount, now);
      OtherJournalAgrees(s, Next(s, op), NewJournal(s.next + 1, h, Pair(pay, cash, Round(amount), desc, desc, now), now), recv.id);
  }

  lemma SellAgrees(s: State, sale: Sale, clock: nat -> int, recv: nat)
    requires LedgerAgrees(s, recv) && PostSale(s, sale, clock).Ok?
    ensures LedgerAgrees(PostSale(s, sale, clock).value, recv)
  {
    var plan := Plan(Round, sale);
    OtherJournalAgrees(s, PostSale(s, sale, clock).value,
                       NewJournal(s.next, SaleHeader(sale), SaleLines(s.chart, plan, clock), clock(|plan|)), recv);
  }

  lemma SpendAgrees(s: State, category: string, desc: string, amount: real, store: Option<nat>, now: int, recv: nat)
    requires LedgerAgrees(s, recv) && CreateExpense(s, category, desc, amount, store, now).Ok?
    ensures LedgerAgrees(CreateExpense(s, category, desc, amount, store, now).value, recv)
  {
    var exp, cash, h := ExpenseShape(s, category, desc, amount, store, now);
    OtherJournalAgrees(s, CreateExpense(s, category, desc, amount, store, now).value,
                       NewJournal(s.next, h, Pair(exp, cash, Round(amount), desc, desc, now), now), recv);
  }

  lemma RemitAgrees(s: State, code: string, amount: real, payBy: string, store: Option<nat>, now: int, recv: nat)
    requires LedgerAgrees(s, recv) && RemitTax(s, code, amount, payBy, store, now).Ok?
    ensures LedgerAgrees(RemitTax(s, code, amount, payBy, store, now).value, recv)
  {
    var tax, from := RemitShape(s, code, amount, payBy, store, now);
    OtherJournalAgrees(s, RemitTax(s, code, amount, payBy, store, now).value,
                       NewJournal(s.next, RemitHeader(store), Pair(tax, from, Round(amount), "Tax remitted", "Paid out", now), now), recv);
  }

  lemma MoveArAgrees(s: State, id: nat, store: Option<nat>, recv: nat)
    requires LedgerAgrees(s, recv) && MoveReceivable(s, id, store).Ok?
    ensures LedgerAgrees(MoveReceivable(s, id, store).value, recv)
  {
    RetagAgrees(s, MoveReceivable(s, id, store).value, Retag(id, ReceivableRef, ArPaymentRef, store), recv);
  }

  lemma MoveApAgrees(s: State, id: nat, store: Option<nat>, recv: nat)
    requires LedgerAgrees(s, recv) && MovePayable(s, id, store).Ok?
    ensures LedgerAgrees(MovePayable(s, id, store).value, recv)
  {
    RetagAgrees(s, MovePayable(s, id, store).value, Retag(id, PayableRef, ApPaymentRef, store), recv);
  }

  lemma MoveCostAgrees(s: State, id: nat, store: Option<nat>, recv: nat)
    requires LedgerAgrees(s, recv) && MoveExpense(s, id, store).Ok?
    ensures LedgerAgrees(MoveExpense(s, id, store).value, recv)
  {
    RetagAgrees(s, MoveExpense(s, id, store).value, RetagOne(s.expenses[FindExpense(s.expenses, id).value].journal, store), recv);
  }

  lemma OtherAgrees(s: State, op: Op, recv: nat)
    requires LedgerAgrees(s, recv) && !Document(op) && Step(s, op).Ok?
    ensures LedgerAgrees(Next(s, op), recv)
  {
    match op
    case Spend(category, desc, amount, store, now) => SpendAgrees(s, category, desc, amount, store, now, recv);
    case Sell(sale, clock) => SellAgrees(s, sale, clock, recv);
    case Remit(code, amount, payBy, store, now) => RemitAgrees(s, code, amount, payBy, store, now, recv);
    case MoveAr(row, store) => MoveArAgrees(s, row, store, recv);
    case MoveAp(row, store) => MoveApAgrees(s, row, store, recv);
    case MoveCost(expense, store) => MoveCostAgrees(s, expense, store, recv);
    case DropAccount(_) =>
  }

  lemma StepAgrees(s: State, op: Op, recv: Account)
    requires Inv(s) && SaleOk(op) && LedgerAgrees(s, recv.id) && OnlyReceivable(s.chart, recv)
    ensures LedgerAgrees(Next(s, op), recv.id) && OnlyReceivable(Next(s, op).chart, recv)
  {
    if Step(s, op).Ok? {
      if op.DropAccount? {
        FilterIn(s.chart, Not(op.account));
      } else {
        StepMoves(s, op);
      }
      if Document(op) {
        DocumentAgrees(s, op, recv);
      } else {
        OtherAgrees(s, op, recv.id);
      }
    }
  }

  /** Over every run and for payments of any amount, each row's payment ledger is what its payment journals credit to 1100. */
  lemma {:induction false} LedgerAgreesOverRuns(s: State, ops: seq<Op>, recv: Account)
    requires Inv(s) && LedgerAgrees(s, recv.id) && OnlyReceivable(s.chart, recv) && forall op :: op in ops ==> SaleOk(op)
    ensures LedgerAgrees(Run(s, ops), recv.id)
    decreases |ops|
  {
    if ops != [] {
      StepAgrees(s, ops[0], recv);
      StepKeepsInv(s, ops[0]);
      LedgerAgreesOverRuns(Next(s, ops[0]), ops[1..], recv);
    }
  }

  lemma AgreesIsBooked(s: State, recv: Account, d: Row)
    requires LedgerAgrees(s, recv.id) && HistoryOk(s) && d in s.ar
    ensures PaidIsBooked(s.journals, recv.id, d)
  {
    assert RowOk(d, s.arPays);
    FilterSum(s.journals, PaysOff(d.id), JOn(recv.id), PaidOff(recv.id, d.id));
  }


  /**
   Healing books that requests have reached, with clean payments: the difference
   falls by exactly the amounts of the rows that have an older twin. All of them
   go, because no request writes a reversal.
   */
  lemma HealAfterRun(chart: seq<Account>, taxes: seq<Tax>, next: nat, ops: seq<Op>, recv: Account, dupes: seq<Row>, now: int)
    requires ChartOk(chart) && RunOk(Empty(chart, taxes, next), ops) && CleanRun(Empty(chart, taxes, next), ops)
    requires AccountByCode(Run(Empty(chart, taxes, next), ops).chart, RECEIVABLE) == Some(recv) && recv in chart
    requires Finds(Run(Empty(chart, taxes, next), ops).ar, dupes)
    ensures var s := Run(Empty(chart, taxes, next), ops);
            && ArGap(Heal.Heal(s, dupes, now)) == ArGap(s) - Sum(dupes, Amounts())
            && forall r :: r in s.ar ==> (r in Heal.Heal(s, dupes, now).ar <==> !OlderTwin(s.ar, r))
  {
    var s0 := Empty(chart, taxes, next);
    var s := Run(s0, ops);
    EmptyIsSound(chart, taxes, next);
    RunKeepsInv(s0, ops);
    HistoryOverRuns(s0, ops);
    forall b | b in chart
      ensures b.id == recv.id <==> b.code == RECEIVABLE
    {
      SameIdSameAccount(chart, recv, b);
    }
    LedgerAgreesOverRuns(s0, ops, recv);
    HealBooks(s, recv, dupes, now);
  }

  function Amounts(): Row -> int {
    (r: Row) => r.amount
  }

  lemma HealBooks(s: State, recv: Account, dupes: seq<Row>, now: int)
    requires Inv(s) && HistoryOk(s) && LedgerAgrees(s, recv.id) && AccountByCode(s.chart, RECEIVABLE) == Some(recv) && Finds(s.ar, dupes)
    ensures ArGap(Heal.Heal(s, dupes, now)) == ArGap(s) - Sum(dupes, Amounts())
    ensures forall r :: r in s.ar ==> (r in Heal.Heal(s, dupes, now).ar <==> !OlderTwin(s.ar, r))
  {
    forall d | d in dupes
      ensures PaidIsBooked(s.journals, recv.id, d)
    {
      AgreesIsBooked(s, recv, d);
    }
    HealClosesTheGap(s, dupes, now, recv);
    SumSame(dupes, GoneAmount(s.journals), Amounts());
    KeepsExactlyTheOldest(s, dupes, now);
  }
}
