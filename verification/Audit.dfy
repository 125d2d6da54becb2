/** The reports on the states that requests can actually reach. */
module Audit {
  import opened Results
  import opened Sums
  import opened Ledger
  import opened Posting
  import opened SubLedger
  import opened Sales
  import opened SalePosting
  import opened Taxes
  import opened Runs
  import opened Reach
  import opened Reports
  import opened Statements
  import opened Stamps

  ghost predicate Sound(j: Journal) {
    JNet()(j) == 0 && forall l :: l in j.lines ==> l.debit >= 0 && l.credit >= 0
  }

  lemma PairIsSound(j: Journal)
    requires IsPair(j)
    ensures Sound(j)
  {
    assert j.lines == [j.lines[0], j.lines[1]];
    SumPair(j.lines[0], j.lines[1], Net());
  }

  lemma PlanNonNegative(sale: Sale, p: Planned)
    requires TaxCovered(sale) && p in Plan(Round, sale)
    ensures p.debit >= 0.0 && p.credit >= 0.0
  {
    RoundIsNearest();
    if p in TaxEntries(Round, sale) && sale.taxes != [] {
      var g := GroupInto(Round, [], sale.taxes);
      var k :| 0 <= k < |g| && BucketEntry(sale.number)(g[k]) == p;
      BucketsNonNegative(Round, [], sale.taxes);
      assert g[k] in g;
    }
  }

  lemma SaleLineNonNegative(s: State, sale: Sale, clock: nat -> int, k: nat)
    requires TaxCovered(sale)
    requires Resolvable(s.chart, Plan(Round, sale)) && k < |Plan(Round, sale)|
    ensures var l := SaleLines(s.chart, Plan(Round, sale), clock)[k]; l.debit >= 0 && l.credit >= 0
  {
    var p := Plan(Round, sale)[k];
    PlanNonNegative(sale, p);
    RoundNonNegative(p.debit);
    RoundNonNegative(p.credit);
  }

  lemma SaleIsNonNegative(s: State, sale: Sale, clock: nat -> int, lines: seq<Line>)
    requires TaxCovered(sale) && Resolvable(s.chart, Plan(Round, sale)) && lines == SaleLines(s.chart, Plan(Round, sale), clock)
    ensures forall l :: l in lines ==> l.debit >= 0 && l.credit >= 0
  {
    forall l | l in lines
      ensures l.debit >= 0 && l.credit >= 0
    {
      var k :| 0 <= k < |lines| && lines[k] == l;
      SaleLineNonNegative(s, sale, clock, k);
    }
  }

  lemma SaleIsSound(s: State, sale: Sale, clock: nat -> int, j: Journal)
    requires WholeSale(sale) && TaxCovered(sale)
    requires Resolvable(s.chart, Plan(Round, sale)) && j.lines == SaleLines(s.chart, Plan(Round, sale), clock)
    ensures Sound(j)
  {
    WholeSaleBalances(s, sale, clock);
    SaleIsNonNegative(s, sale, clock, j.lines);
  }

  ghost predicate AllSound(s: State) {
    forall j :: j in s.journals ==> Sound(j)
  }

  lemma MovesKeepSound(s: State, s': State)
    requires AllSound(s) && Moves(s, s', true)
    ensures AllSound(s')
  {
    forall i | 0 <= i < |s'.journals|
      ensures Sound(s'.journals[i])
    {
      if i < |s.journals| {
        assert s.journals[i] in s.journals;
      } else {
        PairIsSound(s'.journals[i]);
      }
    }
  }

  lemma StepKeepsSound(s: State, op: Op)
    requires Inv(s) && AllSound(s) && FairSale(op) && Step(s, op).Ok?
    ensures AllSound(Next(s, op))
  {
    if op.Sell? {
      var plan := Plan(Round, op.sale);
      var j := NewJournal(s.next, SaleHeader(op.sale), SaleLines(s.chart, plan, op.clock), op.clock(|plan|));
      SaleIsSound(s, op.sale, op.clock, j);
      assert Next(s, op).journals == s.journals + [j];
    } else if !op.DropAccount? {
      StepMoves(s, op);
      MovesKeepSound(s, Next(s, op));
    }
  }

  /** Every journal of every reachable state balances exactly and has no negative line. */
  lemma {:induction false} JournalsSoundOverRuns(s: State, ops: seq<Op>)
    requires Inv(s) && AllSound(s) && forall op :: op in ops ==> FairSale(op)
    ensures AllSound(Run(s, ops))
    decreases |ops|
  {
    if ops != [] {
      assert FairSale(ops[0]);
      if Step(s, ops[0]).Ok? {
        StepKeepsSound(s, ops[0]);
      }
      StepKeepsInv(s, ops[0]);
      JournalsSoundOverRuns(Next(s, ops[0]), ops[1..]);
    }
  }

  lemma MovesKeepNonNegative(s: State, s': State)
    requires NonNegativeLines(s.journals) && Moves(s, s', true)
    ensures NonNegativeLines(s'.journals)
  {
    forall i, l | 0 <= i < |s'.journals| && l in s'.journals[i].lines
      ensures l.debit >= 0 && l.credit >= 0
    {
      if i < |s.journals| {
        assert s.journals[i] in s.journals && l in s.journals[i].lines;
      } else {
        PairIsSound(s'.journals[i]);
      }
    }
  }

  lemma SellKeepsNonNegative(s: State, sale: Sale, clock: nat -> int)
    requires NonNegativeLines(s.journals) && TaxCovered(sale) && PostSale(s, sale, clock).Ok?
    ensures NonNegativeLines(PostSale(s, sale, clock).value.journals)
  {
    var j := JournalOfSale(s, sale, clock);
    assert PostSale(s, sale, clock).value.journals == s.journals + [j];
    SaleIsNonNegative(s, sale, clock, j.lines);
  }

  lemma StepKeepsNonNegative(s: State, op: Op)
    requires Inv(s) && NonNegativeLines(s.journals) && CoveredSale(op) && Step(s, op).Ok?
    ensures NonNegativeLines(Next(s, op).journals)
  {
    var s' := Next(s, op);
    if op.Sell? {
      SellKeepsNonNegative(s, op.sale, op.clock);
    } else if !op.DropAccount? {
      StepMoves(s, op);
      MovesKeepNonNegative(s, s');
    }
  }

  /** For sales of any amount no reachable line is negative. */
  lemma {:induction false} NonNegativeOverRuns(s: State, ops: seq<Op>)
    requires Inv(s) && NonNegativeLines(s.journals) && forall op :: op in ops ==> CoveredSale(op)
    ensures NonNegativeLines(Run(s, ops).journals)
    decreases |ops|
  {
    if ops != [] {
      assert CoveredSale(ops[0]);
      if Step(s, ops[0]).Ok? {
        StepKeepsNonNegative(s, ops[0]);
      }
      StepKeepsInv(s, ops[0]);
      NonNegativeOverRuns(Next(s, ops[0]), ops[1..]);
    }
  }

  lemma NamedIsInChart(s: State)
    requires Inv(s)
    ensures LinesInChart(s.chart, s.journals)
  {
    forall j, l | j in s.journals && l in j.lines
      ensures HasAccount(s.chart, l.account)
    {
      assert Named(s.chart, l);
    }
  }

  /** Requests only ever take accounts out of the chart. */
  lemma {:induction false} ChartOnlyShrinks(s: State, ops: seq<Op>)
    requires Inv(s) && forall op :: op in ops ==> SaleOk(op)
    ensures forall a :: a in Run(s, ops).chart ==> a in s.chart
    decreases |ops|
  {
    if ops != [] {
      if Step(s, ops[0]).Ok? {
        if ops[0].DropAccount? {
          FilterIn(s.chart, Not(ops[0].account));
        } else {
          StepMoves(s, ops[0]);
        }
      }
      StepKeepsInv(s, ops[0]);
      ChartOnlyShrinks(Next(s, ops[0]), ops[1..]);
    }
  }

  lemma ReachableIsSound(chart: seq<Account>, taxes: seq<Tax>, next: nat, ops: seq<Op>)
    requires ChartOk(chart) && forall op :: op in ops ==> FairSale(op)
    ensures var s := Run(Empty(chart, taxes, next), ops);
            && ChartOk(s.chart) && LinesInChart(s.chart, s.journals) && NonNegativeLines(s.journals)
            && forall j :: j in s.journals ==> JNet()(j) == 0
  {
    var s0 := Empty(chart, taxes, next);
    EmptyIsSound(chart, taxes, next);
    JournalsSoundOverRuns(s0, ops);
    RunKeepsInv(s0, ops);
    NamedIsInChart(Run(s0, ops));
    forall j | j in Run(s0, ops).journals
      ensures JNet()(j) == 0 && forall l :: l in j.lines ==> l.debit >= 0 && l.credit >= 0
    {
      assert Sound(j);
    }
  }

  /**
   On every reachable state, at every cut-off and for every store: the trial
   balance is out by what the sales split by the cut-off show of themselves, and
   the balance sheet's check by that less what lies on accounts of none of the
   five types. Nothing else puts either out.
   */
  lemma ReachableBooksBalance(chart: seq<Account>, taxes: seq<Tax>, next: nat, ops: seq<Op>, at: int, store: Option<nat>)
    requires ChartOk(chart) && forall op :: op in ops ==> FairSale(op)
    ensures var s := Run(Empty(chart, taxes, next), ops);
            var caught := Sum(s.journals, CaughtSale(at, store));
            && Check(s, at, store) + OtherNet(s, at, store) == caught
            && Sum(TrialBalance(s, at, store), TrialNet()) == caught
            && (AllFiveKinds(chart) ==> Check(s, at, store) == caught)
  {
    var s0 := Empty(chart, taxes, next);
    var s := Run(s0, ops);
    ReachableIsSound(chart, taxes, next, ops);
    BalancedBooksCheck(s, at, store);
    TrialBalanceIsTheCheck(s, at, store);
    EmptyIsSound(chart, taxes, next);
    AsWrittenOverRuns(s0, ops);
    AllAreAsWritten(s);
    OnlySalesAreCaught(s.journals, at, store);
    if AllFiveKinds(chart) {
      ChartOnlyShrinks(s0, ops);
    }
  }

  /** No sale of the store has counted debits other than its counted credits. */
  ghost predicate EverySaleIsCountedBalanced(s: State, at: int, store: Option<nat>) {
    forall j :: j in s.journals ==> !OutOfBalance(j, at, store)
  }

  /**
   When sales stamp their lines in the order they write them, a sale counted in
   part is counted with more debits than credits, never fewer. So the trial
   balance balances exactly when no sale of the store is counted out of balance,
   and so does the balance sheet of a chart of the five types.
   */
  lemma BooksBalanceIff(chart: seq<Account>, taxes: seq<Tax>, next: nat, ops: seq<Op>, at: int, store: Option<nat>)
    requires ChartOk(chart) && forall op :: op in ops ==> FairSale(op) && RisingSale(op)
    ensures var s := Run(Empty(chart, taxes, next), ops);
            && Sum(TrialBalance(s, at, store), TrialNet()) >= 0
            && (Sum(TrialBalance(s, at, store), TrialNet()) == 0 <==> EverySaleIsCountedBalanced(s, at, store))
            && (AllFiveKinds(chart) ==> (Check(s, at, store) == 0 <==> EverySaleIsCountedBalanced(s, at, store)))
  {
    var s0 := Empty(chart, taxes, next);
    var s := Run(s0, ops);
    ReachableBooksBalance(chart, taxes, next, ops, at, store);
    ReachableIsSound(chart, taxes, next, ops);
    EmptyIsSound(chart, taxes, next);
    RisingOverRuns(s0, ops);
    forall j | j in s.journals
      ensures Rising(j) && JNet()(j) == 0
    {
      assert AllRising(s);
    }
    CaughtIff(s.journals, at, store);
  }

  /** Revenue booked to an account typed "income". */
  function IncomeChart(): seq<Account> {
    [Account(1, RECEIVABLE, Asset), Account(2, REVENUE, OtherKind("income"))]
  }

  function IncomeRun(): seq<Op> {
    [OpenReceivable("INV-1", 500.0, Some(1), 0)]
  }

  lemma IncomePosts()
    ensures ChartOk(IncomeChart())
    ensures var s := Run(Empty(IncomeChart(), [], 9), IncomeRun());
            s.chart == IncomeChart() && |s.journals| == 1 && s.journals[0].store == Some(1)
            && s.journals[0].lines == Pair(IncomeChart()[0], IncomeChart()[1], 500, "Receivable: " + "INV-1", "Revenue: " + "INV-1", 0)
  {
    var s0, recv, rev := Empty(IncomeChart(), [], 9), IncomeChart()[0], IncomeChart()[1];
    CodesDiffer();
    assert s0.chart[1..][0] == rev;
    assert AccountByCode(s0.chart[1..], REVENUE) == Some(rev);
    RoundWhole(500);
    PostPair(s0.(ar := s0.ar + [OpenRow(9, "INV-1", 500, Some(1), 0, "")], next := 10),
             Header("Receivable: " + "INV-1", Some(9), ReceivableRef, Some(1)), recv, rev, 500.0,
             "Receivable: " + "INV-1", "Revenue: " + "INV-1", 0);
    assert IncomeRun()[1..] == [];
    assert Run(s0, IncomeRun()) == Next(s0, IncomeRun()[0]);
  }

  lemma IncomeReceived(at: int)
    requires at >= 0
    ensures NetIn(Run(Empty(IncomeChart(), [], 9), IncomeRun()), 1, UpTo(at), None) == 500
  {
    IncomePosts();
    var js := Run(Empty(IncomeChart(), [], 9), IncomeRun()).journals;
    var ls := js[0].lines;
    assert ls == [ls[0], ls[1]];
    SumPair(ls[0], ls[1], LineIn(1, UpTo(at)));
    assert UpTo(at)(ls[0]);
    SumOnly(js, 0, JIn(1, UpTo(at), None));
  }

  lemma OnlyAssetsCount(s: State, x: Account, y: Account, at: int, store: Option<nat>)
    requires s.chart == [x, y] && x.kind == Asset && y.kind.OtherKind?
    ensures Check(s, at, store) == NetIn(s, x.id, UpTo(at), store)
  {
    SumPair(x, y, KindBalance(s, Asset, at, store));
    SumPair(x, y, KindBalance(s, Liability, at, store));
    SumPair(x, y, KindBalance(s, Equity, at, store));
    SumPair(x, y, KindBalance(s, Revenue, at, store));
    SumPair(x, y, KindBalance(s, Expense, at, store));
  }

  /** Such a chart is accepted, every journal balances, and the check reads 500: the report passes over the account. */
  lemma OtherTypesUnbalanceTheSheet(at: int)
    requires at >= 0
    ensures Check(Run(Empty(IncomeChart(), [], 9), IncomeRun()), at, None) == 500
  {
    var s := Run(Empty(IncomeChart(), [], 9), IncomeRun());
    assert s.chart == [IncomeChart()[0], IncomeChart()[1]] by {
      IncomePosts();
    }
    IncomeReceived(at);
    OnlyAssetsCount(s, IncomeChart()[0], IncomeChart()[1], at, None);
  }

  // ---- the differences the report shows ----

  lemma LaterOnCode(s: State, code: string, at: int)
    ensures NetOn(s, code) == Later(s, code, at, None) + match AccountByCode(s.chart, code)
                                                           case None => 0
                                                           case Some(a) => NetIn(s, a.id, UpTo(at), None)
    ensures Covered(s.journals, at) ==> Later(s, code, at, None) == 0
  {
    match AccountByCode(s.chart, code)
    case None =>
    case Some(a) => CutOffParts(s, a.id, at, None, JOn(a.id));
  }

  /**
   At any cut-off the report's tenant-wide differences are the gaps followed over
   runs and the lines of 1100 and 2000 it does not count yet; the gaps alone once
   every line is counted.
   */
  lemma ReportShowsTheGaps(s: State, at: int)
    requires ChartOk(s.chart)
    ensures ArDiff(s, at, None) == ArGap(s) + Later(s, RECEIVABLE, at, None)
    ensures ApDiff(s, at, None) == ApGap(s) - Later(s, PAYABLE, at, None)
    ensures Covered(s.journals, at) ==> ArDiff(s, at, None) == ArGap(s) && ApDiff(s, at, None) == ApGap(s)
  {
    SumSame(s.ar, StoreBalance(None), Balance());
    SumSame(s.ap, StoreBalance(None), Balance());
    LaterOnCode(s, RECEIVABLE, at);
    LaterOnCode(s, PAYABLE, at);
  }

  /**
   What the balance sheet shows, on every reachable state and at any cut-off:
   one kobo of difference for each accepted payment that ended in half a kobo,
   and what the later lines leave on the control account, because row balances
   have no cut-off. From the last stamp on, none at all for payments in whole kobo.
   */
  lemma ReportedDifferences(chart: seq<Account>, taxes: seq<Tax>, next: nat, ops: seq<Op>, at: int)
    requires ChartOk(chart) && RunOk(Empty(chart, taxes, next), ops)
    ensures var s0 := Empty(chart, taxes, next);
            var s := Run(s0, ops);
            && ArDiff(s, at, None) == ArHalves(s0, ops) + Later(s, RECEIVABLE, at, None)
            && ApDiff(s, at, None) == ApHalves(s0, ops) - Later(s, PAYABLE, at, None)
            && (Covered(s.journals, at) ==> ArDiff(s, at, None) == ArHalves(s0, ops) && ApDiff(s, at, None) == ApHalves(s0, ops))
            && (Covered(s.journals, at) && (forall op :: op in ops ==> KoboPayment(op)) ==>
                  ArDiff(s, at, None) == 0 && ApDiff(s, at, None) == 0)
  {
    var s0 := Empty(chart, taxes, next);
    EmptyIsSound(chart, taxes, next);
    GapOverRuns(s0, ops);
    RunKeepsInv(s0, ops);
    ReportShowsTheGaps(Run(s0, ops), at);
    if forall op :: op in ops ==> KoboPayment(op) {
      NoHalves(s0, ops);
    }
  }

  // ---- the dashboard ----

  ghost predicate AllSettled(s: State) {
    PaidIsSettled(s.ar) && PaidIsSettled(s.ap)
  }

  lemma PaidRowIsSettled(rows: seq<Row>, i: nat, x: real)
    requires PaidIsSettled(rows) && i < |rows| && rows[i].paid >= 0 && PayRow(rows[i], x).Ok?
    ensures PaidIsSettled(rows[i := PayRow(rows[i], x).value])
  {
    PayRowExact(rows[i], x);
  }

  lemma OpenedIsSettled(rows: seq<Row>, r: Row)
    requires PaidIsSettled(rows) && r.status != Paid
    ensures PaidIsSettled(rows + [r])
  {
  }

  lemma MoveKeepsSettled(rows: seq<Row>, i: nat, store: Option<nat>)
    requires PaidIsSettled(rows) && i < |rows|
    ensures PaidIsSettled(rows[i := rows[i].(store := store)])
  {
    assert rows[i] in rows;
  }

  lemma DocumentKeepsSettled(s: State, op: Op)
    requires Inv(s) && AllSettled(s) && Document(op) && Step(s, op).Ok?
    ensures AllSettled(Next(s, op))
  {
    match op
    case OpenReceivable(number, amount, store, now) =>
      var recv, rev, h, dd, cd := ReceivableShape(s, number, amount, store, now);
      OpenedIsSettled(s.ar, OpenRow(s.next, number, Round(amount), store, now, ""));
    case OpenPayable(number, amount, store, category, now) =>
      var exp, pay, h := PayableShape(s, number, amount, store, category, now);
      OpenedIsSettled(s.ap, OpenRow(s.next, number, Round(amount), store, now, category));
    case ReceivePayment(row, amount, now) =>
      var i, cash, recv, h, desc := ReceiptShape(s, row, amount, false, now);
      PaidRowIsSettled(s.ar, i, amount);
    case MakePayment(row, amount, now) =>
      var i, pay, cash, h, desc := DisbursementShape(s, row, amount, now);
      PaidRowIsSettled(s.ap, i, amount);
  }

  lemma SaleKeepsSettled(s: State, sale: Sale, clock: nat -> int)
    requires AllSettled(s) && PostSale(s, sale, clock).Ok?
    ensures AllSettled(PostSale(s, sale, clock).value)
  {
    OpenedIsSettled(s.ar, SaleRow(s.next + 1, sale, clock(|Plan(Round, sale)| + 1)));
  }

  lemma OtherKeepsSettled(s: State, op: Op)
    requires AllSettled(s) && !Document(op) && Step(s, op).Ok?
    ensures AllSettled(Next(s, op))
  {
    match op
    case Spend(category, desc, amount, store, now) =>
      var exp, cash, h := ExpenseShape(s, category, desc, amount, store, now);
    case Sell(sale, clock) => SaleKeepsSettled(s, sale, clock);
    case Remit(code, amount, payBy, store, now) =>
      var tax, from := RemitShape(s, code, amount, payBy, store, now);
    case MoveAr(row, store) => MoveKeepsSettled(s.ar, FindRow(s.ar, row).value, store);
    case MoveAp(row, store) => MoveKeepsSettled(s.ap, FindRow(s.ap, row).value, store);
    case MoveCost(_, _) =>
    case DropAccount(_) =>
  }

  lemma StepKeepsSettled(s: State, op: Op)
    requires Inv(s) && AllSettled(s) && Step(s, op).Ok?
    ensures AllSettled(Next(s, op))
  {
    if Document(op) {
      DocumentKeepsSettled(s, op);
    } else {
      OtherKeepsSettled(s, op);
    }
  }

  lemma {:induction false} SettledOverRuns(s: State, ops: seq<Op>)
    requires Inv(s) && AllSettled(s) && forall op :: op in ops ==> SaleOk(op)
    ensures AllSettled(Run(s, ops))
    decreases |ops|
  {
    if ops != [] {
      if Step(s, ops[0]).Ok? {
        StepKeepsSettled(s, ops[0]);
      }
      StepKeepsInv(s, ops[0]);
      SettledOverRuns(Next(s, ops[0]), ops[1..]);
    }
  }

  /** In every reachable state, for payments of any amount, the dashboard's outstanding figures are the sub-ledger sums. */
  lemma DashboardAgrees(chart: seq<Account>, taxes: seq<Tax>, next: nat, ops: seq<Op>, store: Option<nat>)
    requires ChartOk(chart) && forall op :: op in ops ==> SaleOk(op)
    ensures var s := Run(Empty(chart, taxes, next), ops);
            && Sum(s.ar, Outstanding(store)) == Sum(s.ar, StoreBalance(store))
            && Sum(s.ap, Outstanding(store)) == Sum(s.ap, StoreBalance(store))
  {
    var s0 := Empty(chart, taxes, next);
    EmptyIsSound(chart, taxes, next);
    SettledOverRuns(s0, ops);
    DashboardIsSubLedger(Run(s0, ops).ar, store);
    DashboardIsSubLedger(Run(s0, ops).ap, store);
  }
}
