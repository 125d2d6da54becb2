/**
 What debits a tax account besides remittances, request by request: what is
 still owed is what was collected less what was remitted exactly when no
 accepted request did.
 */
module TaxDebits {
  import opened Results
  import opened Sums
  import opened Ledger
  import opened Posting
  import opened SubLedger
  import opened Sales
  import opened SalePosting
  import opened Taxes
  import opened Runs
  import opened Reach
  import opened Reports
  import opened Statements
  import opened Stamps
  import opened Audit
  import opened TaxRuns
  import Fallback

  /** No other account of the chart has its id or its code. */
  ghost predicate Known(chart: seq<Account>, a: Account) {
    forall b :: b in chart ==> (b.id == a.id <==> b.code == a.code)
  }

  // ---- what an accepted request debits to an account ----

  /** The account that takes a sale's money. */
  function MoneyCode(chart: seq<Account>, sale: Sale): string {
    if Fallback.FallsBack(chart, sale, MoneyAccount(sale)) then CASH else MoneyAccount(sale)
  }

  function Cost(sale: Sale): real {
    GoodsCost(sale.items)
  }

  function SaleDebits(chart: seq<Account>, sale: Sale, code: string): int {
    (if code == MoneyCode(chart, sale) then Round(sale.total) else 0)
    + (if code == COGS && Cost(sale) > 0.0 then Round(Cost(sale)) else 0)
  }

  /** Read off the request and the chart: remittances, moves and deletions debit nothing here. */
  function DebitedBy(s: State, op: Op, code: string): int {
    if Step(s, op).Err? then 0
    else match op
         case OpenReceivable(_, amount, _, _) => if code == RECEIVABLE then Round(amount) else 0
         case OpenPayable(_, amount, _, category, _) => if code == ExpenseCode(category) then Round(amount) else 0
         case ReceivePayment(_, amount, _) => if code == CASH then Round(amount) else 0
         case MakePayment(_, amount, _) => if code == PAYABLE then Round(amount) else 0
         case Spend(category, _, amount, _, _) => if code == ExpenseCode(category) then Round(amount) else 0
         case Sell(sale, _) => SaleDebits(s.chart, sale, code)
         case _ => 0
  }

  /** No accepted request of the run but a remittance debits the account. */
  ghost predicate OnlyRemitted(s: State, ops: seq<Op>, code: string)
    decreases |ops|
  {
    ops == [] || (DebitedBy(s, ops[0], code) == 0 && OnlyRemitted(Next(s, ops[0]), ops[1..], code))
  }

  function DebitedOver(s: State, ops: seq<Op>, code: string): int
    decreases |ops|
  {
    if ops == [] then 0 else DebitedBy(s, ops[0], code) + DebitedOver(Next(s, ops[0]), ops[1..], code)
  }

  function OtherDebits(s: State, a: nat): int {
    Sum(s.journals, JOtherDebit(a, None))
  }

  // ---- the entries of a sale ----

  function DebitShare(chart: seq<Account>, sale: Sale, code: string): Planned -> int {
    (p: Planned) => if (if Fallback.FallsBack(chart, sale, p.code) then CASH else p.code) == code then Round(p.debit) else 0
  }

  lemma {:induction false} LinesDebit(lines: seq<Line>, plan: seq<Planned>, a: nat, f: Planned -> int)
    requires |lines| == |plan|
    requires forall k :: 0 <= k < |plan| ==> DebitOn(a)(lines[k]) == f(plan[k])
    ensures Sum(lines, DebitOn(a)) == Sum(plan, f)
  {
    if plan != [] {
      LinesDebit(lines[1..], plan[1..], a, f);
    }
  }

  lemma LineDebit(s: State, sale: Sale, clock: nat -> int, a: Account, k: nat)
    requires Known(s.chart, a) && PostSale(s, sale, clock).Ok? && k < |Plan(Round, sale)|
    ensures DebitOn(a.id)(SaleLines(s.chart, Plan(Round, sale), clock)[k]) == DebitShare(s.chart, sale, a.code)(Plan(Round, sale)[k])
  {
    Fallback.LinesFallBack(s, sale, clock, k);
    assert Resolve(s.chart, Plan(Round, sale), Plan(Round, sale)[k].code).value in s.chart;
  }

  lemma MoneyDebits(chart: seq<Account>, sale: Sale, tax: real, code: string)
    ensures Sum([MoneyEntry(sale), RevenueEntry(sale, tax)], DebitShare(chart, sale, code))
         == if code == MoneyCode(chart, sale) then Round(sale.total) else 0
  {
    RoundWhole(0);
    DebitIsMoney(sale);
    SumPair(MoneyEntry(sale), RevenueEntry(sale, tax), DebitShare(chart, sale, code));
  }

  lemma GoodsDebits(chart: seq<Account>, sale: Sale, code: string)
    ensures Sum(CostEntries(sale), DebitShare(chart, sale, code)) == if code == COGS && Cost(sale) > 0.0 then Round(Cost(sale)) else 0
  {
    var c := CostEntries(sale);
    CostIsGoods(sale.items);
    if c != [] {
      assert COGS != BANK && COGS != RECEIVABLE by {
        CodesDiffer();
      }
      RoundWhole(0);
      SumPair(c[0], c[1], DebitShare(chart, sale, code));
    }
  }

  lemma TaxesDebitNothing(chart: seq<Account>, sale: Sale, code: string)
    ensures Sum(TaxEntries(Round, sale), DebitShare(chart, sale, code)) == 0
  {
    RoundWhole(0);
    SumZero(TaxEntries(Round, sale), DebitShare(chart, sale, code));
  }

  lemma PlanDebits(chart: seq<Account>, sale: Sale, code: string)
    ensures Sum(Plan(Round, sale), DebitShare(chart, sale, code)) == SaleDebits(chart, sale, code)
  {
    var m, t, c := [MoneyEntry(sale), RevenueEntry(sale, TaxTotal(Round, sale))], TaxEntries(Round, sale), CostEntries(sale);
    SumConcat(m + t, c, DebitShare(chart, sale, code));
    SumConcat(m, t, DebitShare(chart, sale, code));
    MoneyDebits(chart, sale, TaxTotal(Round, sale), code);
    TaxesDebitNothing(chart, sale, code);
    GoodsDebits(chart, sale, code);
  }

  lemma SaleDebited(s: State, sale: Sale, clock: nat -> int, a: Account)
    requires Known(s.chart, a) && PostSale(s, sale, clock).Ok?
    ensures Sum(SaleLines(s.chart, Plan(Round, sale), clock), DebitOn(a.id)) == SaleDebits(s.chart, sale, a.code)
  {
    var plan := Plan(Round, sale);
    forall k | 0 <= k < |plan|
      ensures DebitOn(a.id)(SaleLines(s.chart, plan, clock)[k]) == DebitShare(s.chart, sale, a.code)(plan[k])
    {
      LineDebit(s, sale, clock, a, k);
    }
    LinesDebit(SaleLines(s.chart, plan, clock), plan, a.id, DebitShare(s.chart, sale, a.code));
    PlanDebits(s.chart, sale, a.code);
  }

  // ---- each request ----

  lemma PairDebits(s: State, s': State, id: nat, h: Header, d: Account, c: Account, x: int, dd: string, cd: string, at: int, a: Account)
    requires Known(s.chart, a) && d in s.chart
    requires s'.journals == s.journals + [NewJournal(id, h, Pair(d, c, x, dd, cd, at), at)]
    ensures OtherDebits(s', a.id) == OtherDebits(s, a.id) + if h.kind != TaxRemittanceRef && d.code == a.code then x else 0
  {
    var j := NewJournal(id, h, Pair(d, c, x, dd, cd, at), at);
    SumAppend(s.journals, j, JOtherDebit(a.id, None));
    PairOn(d, c, x, dd, cd, at, a.id);
  }

  lemma DocumentDebits(s: State, op: Op, a: Account)
    requires Known(s.chart, a) && Document(op) && Step(s, op).Ok?
    ensures OtherDebits(Next(s, op), a.id) == OtherDebits(s, a.id) + DebitedBy(s, op, a.code)
  {
    var s' := Next(s, op);
    match op
    case OpenReceivable(number, amount, store, now) =>
      var recv, rev, h, dd, cd := ReceivableShape(s, number, amount, store, now);
      PairDebits(s, s', s.next + 1, h, recv, rev, Round(amount), dd, cd, now, a);
    case OpenPayable(number, amount, store, category, now) =>
      var exp, pay, h := PayableShape(s, number, amount, store, category, now);
      PairDebits(s, s', s.next + 1, h, exp, pay, Round(amount), number, number, now, a);
    case ReceivePayment(row, amount, now) =>
      var i, cash, recv, h, desc := ReceiptShape(s, row, amount, false, now);
      PairDebits(s, s', s.next + 1, h, cash, recv, Round(amount), desc, desc, now, a);
    case MakePayment(row, amount, now) =>
      var i, pay, cash, h, desc := DisbursementShape(s, row, amount, now);
      PairDebits(s, s', s.next + 1, h, pay, cash, Round(amount), desc, desc, now, a);
  }

  lemma SellDebits(s: State, sale: Sale, clock: nat -> int, a: Account)
    requires Known(s.chart, a) && PostSale(s, sale, clock).Ok?
    ensures OtherDebits(PostSale(s, sale, clock).value, a.id) == OtherDebits(s, a.id) + SaleDebits(s.chart, sale, a.code)
  {
    var j := JournalOfSale(s, sale, clock);
    assert PostSale(s, sale, clock).value.journals == s.journals + [j];
    SumAppend(s.journals, j, JOtherDebit(a.id, None));
    assert JOtherDebit(a.id, None)(j) == SaleDebits(s.chart, sale, a.code) by {
      SaleDebited(s, sale, clock, a);
    }
  }

  /** Retagging keeps every journal's kind and lines. */
  lemma RetagDebits(s: State, s': State, m: Journal -> Journal, a: nat)
    requires s'.journals == Map(s.journals, m)
    requires forall j :: m(j).lines == j.lines && m(j).kind == j.kind
    ensures OtherDebits(s', a) == OtherDebits(s, a)
  {
    SumMap(s.journals, m, JOtherDebit(a, None), JOtherDebit(a, None));
  }

  lemma MoveDebits(s: State, op: Op, a: nat)
    requires (op.MoveAr? || op.MoveAp? || op.MoveCost? || op.DropAccount?) && Step(s, op).Ok?
    ensures OtherDebits(Next(s, op), a) == OtherDebits(s, a)
  {
    match op
    case MoveAr(row, store) => RetagDebits(s, Next(s, op), Retag(row, ReceivableRef, ArPaymentRef, store), a);
    case MoveAp(row, store) => RetagDebits(s, Next(s, op), Retag(row, PayableRef, ApPaymentRef, store), a);
    case MoveCost(expense, store) =>
      RetagDebits(s, Next(s, op), RetagOne(s.expenses[FindExpense(s.expenses, expense).value].journal, store), a);
    case DropAccount(_) =>
  }

  /** One request adds to the other debits of an account exactly what it debits to it. */
  lemma StepDebits(s: State, op: Op, a: Account)
    requires Known(s.chart, a)
    ensures OtherDebits(Next(s, op), a.id) == OtherDebits(s, a.id) + DebitedBy(s, op, a.code)
  {
    if Step(s, op).Ok? {
      if Document(op) {
        DocumentDebits(s, op, a);
      } else {
        match op
        case Spend(category, desc, amount, store, now) =>
          var exp, cash, h := ExpenseShape(s, category, desc, amount, store, now);
          PairDebits(s, Next(s, op), s.next, h, exp, cash, Round(amount), desc, desc, now, a);
        case Sell(sale, clock) => SellDebits(s, sale, clock, a);
        case Remit(code, amount, payBy, store, now) =>
          var tax, from := RemitShape(s, code, amount, payBy, store, now);
          PairDebits(s, Next(s, op), s.next, RemitHeader(store), tax, from, Round(amount), "Tax remitted", "Paid out", now, a);
        case _ => MoveDebits(s, op, a.id);
      }
    }
  }

  lemma DebitedIsNonNegative(s: State, op: Op, code: string)
    requires SaleOk(op)
    ensures DebitedBy(s, op, code) >= 0
  {
    if op.Sell? {
      RoundNonNegative(op.sale.total);
      if Cost(op.sale) > 0.0 {
        RoundNonNegative(Cost(op.sale));
      }
    }
  }

  // ---- over runs ----

  lemma {:induction false} DebitsOverRuns(s: State, ops: seq<Op>, a: Account)
    requires Inv(s) && Known(s.chart, a) && forall op :: op in ops ==> SaleOk(op)
    ensures OtherDebits(Run(s, ops), a.id) == OtherDebits(s, a.id) + DebitedOver(s, ops, a.code)
    ensures DebitedOver(s, ops, a.code) >= 0 && (DebitedOver(s, ops, a.code) == 0 <==> OnlyRemitted(s, ops, a.code))
    decreases |ops|
  {
    if ops != [] {
      StepDebits(s, ops[0], a);
      DebitedIsNonNegative(s, ops[0], a.code);
      StepKeepsInv(s, ops[0]);
      ChartOnlyShrinks(s, [ops[0]]);
      assert Run(s, [ops[0]]) == Next(s, ops[0]) by {
        assert [ops[0]][1..] == [];
      }
      DebitsOverRuns(Next(s, ops[0]), ops[1..], a);
    }
  }

  /**
   Over every run from an empty ledger, for any account of the chart: what is
   still owed tenant-wide is what was collected less what was remitted, less the
   debits the run's other requests make to the account; so the two agree if and
   only if no accepted request but a remittance debits it.
   */
  lemma CollectedLessRemittedIff(chart: seq<Account>, taxes: seq<Tax>, next: nat, ops: seq<Op>, a: Account)
    requires ChartOk(chart) && a in chart && forall op :: op in ops ==> SaleOk(op)
    ensures var s0 := Empty(chart, taxes, next);
            var s := Run(s0, ops);
            && StillOwed(s, a.id, None) == Collected(s, a.id, None) - Remitted(s, a.id, None) - DebitedOver(s0, ops, a.code)
            && (StillOwed(s, a.id, None) == Collected(s, a.id, None) - Remitted(s, a.id, None) <==> OnlyRemitted(s0, ops, a.code))
  {
    var s0 := Empty(chart, taxes, next);
    EmptyIsSound(chart, taxes, next);
    forall b | b in chart
      ensures b.id == a.id <==> b.code == a.code
    {
      SameIdSameAccount(chart, a, b);
    }
    DebitsOverRuns(s0, ops, a);
    OwedExactly(Run(s0, ops), a.id, None);
  }

  /** The answer to what is owed: under that condition each of its lines owes what it collected less what it remitted. */
  lemma LinesBalance(chart: seq<Account>, taxes: seq<Tax>, next: nat, ops: seq<Op>, a: Account, l: OwedLine)
    requires ChartOk(chart) && a in chart && forall op :: op in ops ==> SaleOk(op)
    requires Tells(l, Run(Empty(chart, taxes, next), ops), a, None)
    ensures l.owed == l.collected - l.remitted <==> OnlyRemitted(Empty(chart, taxes, next), ops, a.code)
  {
    CollectedLessRemittedIff(chart, taxes, next, ops, a);
  }

  lemma NoneInAnyStore(js: seq<Journal>, a: nat, store: Option<nat>)
    requires NonNegativeLines(js) && Sum(js, JOtherDebit(a, None)) == 0
    ensures Sum(js, JOtherDebit(a, store)) == 0
  {
    forall j | j in js
      ensures JOtherDebit(a, None)(j) >= 0
    {
      SumNonNegative(j.lines, DebitOn(a));
    }
    SumNonNegative(js, JOtherDebit(a, None));
    forall j | j in js
      ensures JOtherDebit(a, store)(j) == 0
    {
      assert JOtherDebit(a, None)(j) == 0;
    }
    SumZero(js, JOtherDebit(a, store));
  }

  /** Under that condition the same holds in every store. */
  lemma CollectedLessRemittedInStores(chart: seq<Account>, taxes: seq<Tax>, next: nat, ops: seq<Op>, a: Account, store: Option<nat>)
    requires ChartOk(chart) && a in chart && forall op :: op in ops ==> CoveredSale(op)
    requires OnlyRemitted(Empty(chart, taxes, next), ops, a.code)
    ensures var s := Run(Empty(chart, taxes, next), ops);
            StillOwed(s, a.id, store) == Collected(s, a.id, store) - Remitted(s, a.id, store)
  {
    var s0 := Empty(chart, taxes, next);
    forall op | op in ops
      ensures SaleOk(op)
    {
      assert CoveredSale(op);
    }
    CollectedLessRemittedIff(chart, taxes, next, ops, a);
    EmptyIsSound(chart, taxes, next);
    NonNegativeOverRuns(s0, ops);
    OwedExactly(Run(s0, ops), a.id, None);
    NoneInAnyStore(Run(s0, ops).journals, a.id, store);
    OwedExactly(Run(s0, ops), a.id, store);
  }

  /** The answer for one store, under the same condition. */
  lemma LinesBalanceInStores(chart: seq<Account>, taxes: seq<Tax>, next: nat, ops: seq<Op>, a: Account, store: Option<nat>, l: OwedLine)
    requires ChartOk(chart) && a in chart && forall op :: op in ops ==> CoveredSale(op)
    requires OnlyRemitted(Empty(chart, taxes, next), ops, a.code) && Tells(l, Run(Empty(chart, taxes, next), ops), a, store)
    ensures l.owed == l.collected - l.remitted
  {
    CollectedLessRemittedInStores(chart, taxes, next, ops, a, store);
  }

  // ---- the tax answer and the balance sheet ----

  /** Every posted line is stamped by the cut-off, or not at all. */
  ghost predicate StampedBy(js: seq<Journal>, at: int) {
    forall j, l :: j in js && l in j.lines && l.posted ==> l.at.None? || l.at.value <= at
  }

  /** For any books and store, what a line owes is the balance the balance sheet shows for its account, once every posted line is counted. */
  lemma OwedIsTheBalance(s: State, a: Account, store: Option<nat>, at: int, l: OwedLine)
    requires Tells(l, s, a, store) && a.kind != Asset && a.kind != Expense && StampedBy(s.journals, at)
    ensures l.owed == AccountBalance(s, a, at, store)
  {
    forall j | j in s.journals
      ensures JDebit(a.id, store)(j) == JIn(a.id, UpTo(at), store)(j) + JCredit(a.id, store)(j)
    {
      forall l | l in j.lines
        ensures DebitOn(a.id)(l) == LineIn(a.id, UpTo(at))(l) + CreditOn(a.id)(l)
      {
        assert UpTo(at)(l) <==> l.posted;
      }
      SumPlus(j.lines, DebitOn(a.id), LineIn(a.id, UpTo(at)), CreditOn(a.id));
    }
    SumPlus(s.journals, JDebit(a.id, store), JIn(a.id, UpTo(at), store), JCredit(a.id, store));
  }
}
