/** The cash flow statement on the states requests can reach: exactly the sales caught across a boundary stray. */
module CashRuns {
  import opened Results
  import opened Sums
  import opened Ledger
  import opened Posting
  import opened Sales
  import opened SalePosting
  import opened Runs
  import opened Reach
  import opened Reports
  import opened CashFlow
  import opened Stamps
  import opened Statements
  import opened Audit

  // ---- sales that take cash, under a clock that runs forward ----

  /** No tax of the sale is booked to cash or bank or 1100, and its header is stamped after its lines. */
  ghost predicate ForwardSale(op: Op) {
    op.Sell? ==>
      && CashFreeTaxes(op.sale.taxes)
      && forall i :: 0 <= i < |Plan(Round, op.sale)| ==> op.clock(i) <= op.clock(|Plan(Round, op.sale)|)
  }

  ghost predicate TakesCash(j: Journal) {
    j.kind == SaleRef ==>
      && j.at.Some?
      && forall l :: l in j.lines && l.code == CASH ==> l.debit >= l.credit && l.at.Some? && l.at.value <= j.at.value
  }

  ghost predicate AllTakeCash(s: State) {
    forall j :: j in s.journals ==> TakesCash(j)
  }

  /** Only the first entry of such a sale can be booked to cash, and it is a debit. */
  lemma OnlyFirstIsCash(sale: Sale, plan: seq<Planned>, k: nat)
    requires Shaped(sale, plan) && CashFreeTaxes(sale.taxes) && k < |plan| && plan[k].code == CASH
    ensures k == 0 && plan[k].debit == sale.total && plan[k].credit == 0.0
  {
    CodesDiffer();
  }

  lemma CashLineTakes(s: State, sale: Sale, clock: nat -> int, k: nat)
    requires PostSale(s, sale, clock).Ok? && CashFreeTaxes(sale.taxes) && sale.total >= 0.0 && k < |Plan(Round, sale)|
    ensures var l := SaleLines(s.chart, Plan(Round, sale), clock)[k]; l.code == CASH ==> l.debit >= l.credit
  {
    var plan := Plan(Round, sale);
    NoFallback(s, sale, plan, clock);
    if plan[k].code == CASH {
      RoundIsNearest();
      PlanIsShaped(Round, sale);
      OnlyFirstIsCash(sale, plan, k);
      RoundWhole(0);
      RoundNonNegative(sale.total);
    }
  }

  lemma SaleTakesCash(s: State, op: Op)
    requires op.Sell? && ForwardSale(op) && SaleOk(op) && Step(s, op).Ok?
    ensures TakesCash(JournalOfSale(s, op.sale, op.clock))
  {
    var plan := Plan(Round, op.sale);
    var lines := SaleLines(s.chart, plan, op.clock);
    forall l | l in lines && l.code == CASH
      ensures l.debit >= l.credit && l.at.Some? && l.at.value <= op.clock(|plan|)
    {
      var k :| 0 <= k < |lines| && lines[k] == l;
      CashLineTakes(s, op.sale, op.clock, k);
    }
  }

  lemma MovesKeepTakesCash(s: State, s': State)
    requires AllTakeCash(s) && Moves(s, s', true)
    ensures AllTakeCash(s')
  {
    forall i | 0 <= i < |s'.journals|
      ensures TakesCash(s'.journals[i])
    {
      assert i < |s.journals| ==> s.journals[i] in s.journals;
    }
  }

  lemma StepTakesCash(s: State, op: Op)
    requires Inv(s) && AllTakeCash(s) && SaleOk(op) && ForwardSale(op) && Step(s, op).Ok?
    ensures AllTakeCash(Next(s, op))
  {
    var s' := Next(s, op);
    if op.Sell? {
      SaleTakesCash(s, op);
      assert s'.journals == s.journals + [JournalOfSale(s, op.sale, op.clock)];
    } else if !op.DropAccount? {
      StepMoves(s, op);
      MovesKeepTakesCash(s, s');
    }
  }

  lemma {:induction false} TakesCashOverRuns(s: State, ops: seq<Op>)
    requires Inv(s) && AllTakeCash(s) && forall op :: op in ops ==> SaleOk(op) && ForwardSale(op)
    ensures AllTakeCash(Run(s, ops))
    decreases |ops|
  {
    if ops != [] {
      assert ForwardSale(ops[0]);
      if Step(s, ops[0]).Ok? {
        StepTakesCash(s, ops[0]);
      }
      StepKeepsInv(s, ops[0]);
      TakesCashOverRuns(Next(s, ops[0]), ops[1..]);
    }
  }

  // ---- the statement ----

  lemma ReachableIsCashCoded(s: State, cash: Account)
    requires Inv(s) && NonNegativeLines(s.journals) && cash in s.chart && cash.code == CASH
    ensures CashCoded(s.journals, cash.id)
  {
    forall j, l | j in s.journals && l in j.lines
      ensures (l.code == CASH <==> l.account == cash.id) && l.debit >= 0 && l.credit >= 0
    {
      assert Named(s.chart, l);
      var a :| a in s.chart && a.id == l.account && a.code == l.code;
      SameIdSameAccount(s.chart, a, cash);
    }
  }

  ghost predicate NothingStraddles(s: State, cash: nat, b: int, store: Option<nat>) {
    forall j :: j in s.journals ==> !Straddles(j, cash, b, store)
  }

  /** What the statement says more than the change in balance: cash caught across the start less cash caught across the end. */
  function StrayNet(s: State, cash: nat, from: int, to: int, store: Option<nat>): int {
    Sum(s.journals, SaleCross(cash, from, store)) - Sum(s.journals, SaleCross(cash, to + 1, store))
  }

  /**
   On every reachable state, for every period and store: the net cash flow is
   the change in the cash balance plus the cash of the sales caught across the
   start, less that of the sales caught across the end. When no sale of the
   store has its header and a cash line on different sides of an end of the
   period, it is the change in the cash balance.
   */
  lemma ReachableCashFlow(chart: seq<Account>, taxes: seq<Tax>, next: nat, ops: seq<Op>, cash: Account,
                          from: int, to: int, store: Option<nat>)
    requires ChartOk(chart) && (forall op :: op in ops ==> CoveredSale(op)) && from <= to + 1
    requires cash in Run(Empty(chart, taxes, next), ops).chart && cash.code == CASH && cash.kind == Asset
    ensures var s := Run(Empty(chart, taxes, next), ops);
            var change := AccountBalance(s, cash, to, store) - AccountBalance(s, cash, from - 1, store);
            && NetCashFlow(s, from, to, store) == change + StrayNet(s, cash.id, from, to, store)
            && (NothingStraddles(s, cash.id, from, store) && NothingStraddles(s, cash.id, to + 1, store) ==>
                  NetCashFlow(s, from, to, store) == change)
  {
    var s0 := Empty(chart, taxes, next);
    var s := Run(s0, ops);
    EmptyIsSound(chart, taxes, next);
    NonNegativeOverRuns(s0, ops);
    RunKeepsInv(s0, ops);
    AsWrittenOverRuns(s0, ops);
    ReachableIsCashCoded(s, cash);
    OnlySalesStray(s, cash, from, to, store);
    if NothingStraddles(s, cash.id, from, store) && NothingStraddles(s, cash.id, to + 1, store) {
      NoneStraddles(s.journals, cash.id, from, store);
      NoneStraddles(s.journals, cash.id, to + 1, store);
    }
  }

  lemma ForwardByAccount(s: State, cash: Account)
    requires AllTakeCash(s) && CashCoded(s.journals, cash.id)
    ensures forall j :: j in s.journals && j.kind == SaleRef ==> Forward(j, cash.id)
  {
    forall j | j in s.journals && j.kind == SaleRef
      ensures Forward(j, cash.id)
    {
      assert TakesCash(j);
    }
  }

  /**
   The statement is the change in the cash balance exactly when the sales caught
   across the start brought in as much cash as those caught across the end. With
   clocks that run forward a boundary catches cash exactly when a sale straddles
   it: if none straddles one end of the period, then exactly when none straddles
   the other.
   */
  lemma CashFlowExactly(chart: seq<Account>, taxes: seq<Tax>, next: nat, ops: seq<Op>, cash: Account,
                        from: int, to: int, store: Option<nat>)
    requires ChartOk(chart) && (forall op :: op in ops ==> CoveredSale(op) && ForwardSale(op)) && from <= to + 1
    requires cash in Run(Empty(chart, taxes, next), ops).chart && cash.code == CASH && cash.kind == Asset
    ensures var s := Run(Empty(chart, taxes, next), ops);
            var change := AccountBalance(s, cash, to, store) - AccountBalance(s, cash, from - 1, store);
            && (NetCashFlow(s, from, to, store) == change <==>
                  Sum(s.journals, SaleCross(cash.id, from, store)) == Sum(s.journals, SaleCross(cash.id, to + 1, store)))
            && Sum(s.journals, SaleCross(cash.id, from, store)) >= 0 && Sum(s.journals, SaleCross(cash.id, to + 1, store)) >= 0
            && (NothingStraddles(s, cash.id, to + 1, store) ==>
                  (NetCashFlow(s, from, to, store) == change <==> NothingStraddles(s, cash.id, from, store)))
            && (NothingStraddles(s, cash.id, from, store) ==>
                  (NetCashFlow(s, from, to, store) == change <==> NothingStraddles(s, cash.id, to + 1, store)))
  {
    var s0 := Empty(chart, taxes, next);
    var s := Run(s0, ops);
    ReachableCashFlow(chart, taxes, next, ops, cash, from, to, store);
    EmptyIsSound(chart, taxes, next);
    NonNegativeOverRuns(s0, ops);
    RunKeepsInv(s0, ops);
    forall op | op in ops
      ensures SaleOk(op) && ForwardSale(op)
    {
      assert CoveredSale(op);
    }
    TakesCashOverRuns(s0, ops);
    ReachableIsCashCoded(s, cash);
    ForwardByAccount(s, cash);
    CrossesIffStraddled(s.journals, cash.id, from, store);
    CrossesIffStraddled(s.journals, cash.id, to + 1, store);
  }

  // ---- a sale caught across the end of a period ----

  function CashChart(): seq<Account> {
    [Account(1, CASH, Asset), Account(2, REVENUE, Revenue)]
  }

  /** Lines stamped 10, header stamped 20. */
  function LateClock(): nat -> int {
    (i: nat) => if i < 2 then 10 else 20
  }

  function CashSale(): Sale {
    Sale(1, "S-1", 100.0, 0.0, [], [], "cash", Some(1), true)
  }

  function OneSale(clock: nat -> int): State {
    Run(Empty(CashChart(), [], 9), [Sell(CashSale(), clock)])
  }

  function LateRun(): State {
    OneSale(LateClock())
  }

  lemma LateSaleIsPlanned()
    ensures var plan := Plan(Round, CashSale());
            && plan == [MoneyEntry(CashSale()), RevenueEntry(CashSale(), 0.0)]
            && plan[0].code == CASH && plan[1].code == REVENUE
            && Resolve(CashChart(), plan, CASH) == Some(CashChart()[0]) && Resolve(CashChart(), plan, REVENUE) == Some(CashChart()[1])
            && Resolvable(CashChart(), plan)
  {
    var chart, plan := CashChart(), Plan(Round, CashSale());
    CodesDiffer();
    assert chart[1..][0] == chart[1] && AccountByCode(chart[1..], REVENUE) == Some(chart[1]);
    assert plan == [MoneyEntry(CashSale()), RevenueEntry(CashSale(), 0.0)];
    forall p | p in plan
      ensures Resolve(chart, plan, p.code).Some?
    {
      assert p == plan[0] || p == plan[1];
    }
  }

  lemma OneSalePosts(clock: nat -> int)
    ensures var s := OneSale(clock);
            && s.chart == CashChart() && |s.journals| == 1
            && var j := s.journals[0];
               && j.posted && j.at == Some(clock(2)) && j.store == Some(1) && |j.lines| == 2
               && j.lines[0].account == 1 && j.lines[0].debit == 100 && j.lines[0].credit == 0
               && j.lines[1].account == 2
               && j.lines[0].posted && j.lines[0].at == Some(clock(0)) && j.lines[1].at == Some(clock(1))
  {
    var s0, ops := Empty(CashChart(), [], 9), [Sell(CashSale(), clock)];
    LateSaleIsPlanned();
    RoundWhole(0);
    RoundWhole(100);
    assert ops[1..] == [] && OneSale(clock) == Run(Next(s0, ops[0]), []) == Next(s0, ops[0]);
  }

  /** The period ends between the two stamps: the statement shows nothing, the cash balance grew by 100. */
  lemma LateSaleStrays()
    ensures var s := LateRun();
            && NetCashFlow(s, 0, 15, None) == 0
            && AccountBalance(s, CashChart()[0], 15, None) - AccountBalance(s, CashChart()[0], -1, None) == 100
  {
    var s, cash := LateRun(), CashChart()[0];
    OneSalePosts(LateClock());
    var j := s.journals[0];
    assert s.journals == [j] && s.journals[1..] == [];
    assert !InPeriod(j, 0, 15, None);
    assert Ungrouped(s.journals[1..], true, 0, 15, None) == [] && Ungrouped(s.journals[1..], false, 0, 15, None) == [];
    assert Flows(s, true, 0, 15, None) == [] && Flows(s, false, 0, 15, None) == [];
    assert j.lines == [j.lines[0], j.lines[1]];
    SumPair(j.lines[0], j.lines[1], LineIn(1, UpTo(15)));
    SumPair(j.lines[0], j.lines[1], LineIn(1, UpTo(-1)));
    SumOnly(s.journals, 0, JIn(1, UpTo(15), None));
    SumOnly(s.journals, 0, JIn(1, UpTo(-1), None));
  }

  // ---- a sale split by the cut-off of a balance sheet ----

  /** The cash line stamped 10, the revenue line and the header 20. */
  function SplitClock(): nat -> int {
    (i: nat) => if i < 1 then 10 else 20
  }

  lemma SplitSaleCounts(a: Account)
    requires a in CashChart()
    ensures NetIn(OneSale(SplitClock()), a.id, UpTo(15), None) == if a == CashChart()[0] then 100 else 0
  {
    var js := OneSale(SplitClock()).journals;
    OneSalePosts(SplitClock());
    var ls := js[0].lines;
    assert ls == [ls[0], ls[1]] && UpTo(15)(ls[0]) && !UpTo(15)(ls[1]);
    SumPair(ls[0], ls[1], LineIn(a.id, UpTo(15)));
    SumOnly(js, 0, JIn(a.id, UpTo(15), None));
  }

  lemma FairCashSale(clock: nat -> int)
    ensures FairSale(Sell(CashSale(), clock))
  {
    RoundWhole(0);
  }

  lemma CashAndRevenue(s: State, at: int)
    requires s.chart == CashChart()
    ensures Check(s, at, None) == NetIn(s, 1, UpTo(at), None) + NetIn(s, 2, UpTo(at), None)
  {
    var x, y := CashChart()[0], CashChart()[1];
    assert s.chart == [x, y];
    SumPair(x, y, KindBalance(s, Asset, at, None));
    SumPair(x, y, KindBalance(s, Liability, at, None));
    SumPair(x, y, KindBalance(s, Equity, at, None));
    SumPair(x, y, KindBalance(s, Revenue, at, None));
    SumPair(x, y, KindBalance(s, Expense, at, None));
  }

  lemma CashChartIsOk()
    ensures ChartOk(CashChart()) && AllFiveKinds(CashChart())
  {
    CodesDiffer();
  }

  lemma OneSaleAgrees(clock: nat -> int, at: int)
    ensures Sum(TrialBalance(OneSale(clock), at, None), TrialNet()) == Check(OneSale(clock), at, None)
  {
    CashChartIsOk();
    FairCashSale(clock);
    ReachableBooksBalance(CashChart(), [], 9, [Sell(CashSale(), clock)], at, None);
  }

  /** The cut-off falls between its two lines: the check and the trial balance both read 100. */
  lemma SplitSaleUnbalances()
    ensures Check(OneSale(SplitClock()), 15, None) == 100
    ensures Sum(TrialBalance(OneSale(SplitClock()), 15, None), TrialNet()) == 100
  {
    OneSaleAgrees(SplitClock(), 15);
    assert Check(OneSale(SplitClock()), 15, None) == 100 by {
      assert OneSale(SplitClock()).chart == CashChart() by {
        OneSalePosts(SplitClock());
      }
      SplitSaleCounts(CashChart()[0]);
      SplitSaleCounts(CashChart()[1]);
      CashAndRevenue(OneSale(SplitClock()), 15);
    }
  }
}
