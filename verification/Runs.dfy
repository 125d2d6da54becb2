/**
 Runs of the books: any list of requests, each one transaction, refused
 requests leaving nothing behind. The control accounts 1100 and 2000 keep up
 with the receivable and payable rows over every run.
 */
module Runs {
  import opened Results
  import opened Sums
  import opened Ledger
  import opened Posting
  import opened SubLedger
  import opened Sales
  import opened SalePosting
  import opened Taxes

  datatype Op =
    | OpenReceivable(number: string, amount: real, store: Option<nat>, now: int)
    | OpenPayable(number: string, amount: real, store: Option<nat>, category: string, now: int)
    | ReceivePayment(row: nat, amount: real, now: int)
    | MakePayment(row: nat, amount: real, now: int)
    | Spend(category: string, desc: string, amount: real, store: Option<nat>, now: int)
    | Sell(sale: Sale, clock: nat -> int)
    | Remit(code: string, amount: real, payBy: string, store: Option<nat>, now: int)
    | MoveAr(row: nat, store: Option<nat>)
    | MoveAp(row: nat, store: Option<nat>)
    | MoveCost(expense: nat, store: Option<nat>)
    | DropAccount(account: nat)

  function Step(s: State, op: Op): Result<State> {
    match op
    case OpenReceivable(number, amount, store, now) => CreateReceivable(s, number, amount, store, now)
    case OpenPayable(number, amount, store, category, now) => CreatePayable(s, number, amount, store, category, now)
    case ReceivePayment(row, amount, now) => PayReceivable(s, row, amount, false, now)
    case MakePayment(row, amount, now) => PayPayable(s, row, amount, now)
    case Spend(category, desc, amount, store, now) => CreateExpense(s, category, desc, amount, store, now)
    case Sell(sale, clock) => PostSale(s, sale, clock)
    case Remit(code, amount, payBy, store, now) => RemitTax(s, code, amount, payBy, store, now)
    case MoveAr(row, store) => MoveReceivable(s, row, store)
    case MoveAp(row, store) => MovePayable(s, row, store)
    case MoveCost(expense, store) => MoveExpense(s, expense, store)
    case DropAccount(account) => DeleteAccount(s, account)
  }

  function Next(s: State, op: Op): State {
    match Step(s, op) case Ok(s') => s' case Err(_) => s
  }

  function Run(s: State, ops: seq<Op>): State
    decreases |ops|
  {
    if ops == [] then s else Run(Next(s, ops[0]), ops[1..])
  }

  // ---- the gap between a sub-ledger and its control account ----

  function ArGap(s: State): int {
    Sum(s.ar, Balance()) - NetOn(s, RECEIVABLE)
  }

  function ApGap(s: State): int {
    Sum(s.ap, Balance()) + NetOn(s, PAYABLE)
  }

  /** The account a tax is booked to is not a control account. */
  predicate TaxesOk(s: State, op: Op) {
    && !Listed(s.taxes, RECEIVABLE)
    && !Listed(s.taxes, PAYABLE)
    && (op.Sell? ==> !TaxedTo(op.sale.taxes, RECEIVABLE) && !TaxedTo(op.sale.taxes, PAYABLE))
  }

  function ArDrift(s: State, op: Op): int {
    if op.ReceivePayment? && Step(s, op).Ok? then Drift(op.amount) else 0
  }

  function ApDrift(s: State, op: Op): int {
    if op.MakePayment? && Step(s, op).Ok? then Drift(op.amount) else 0
  }

  /** How many accepted receivable payments of the run ended in exactly half a kobo. */
  function ArHalves(s: State, ops: seq<Op>): int
    decreases |ops|
  {
    if ops == [] then 0 else ArDrift(s, ops[0]) + ArHalves(Next(s, ops[0]), ops[1..])
  }

  function ApHalves(s: State, ops: seq<Op>): int
    decreases |ops|
  {
    if ops == [] then 0 else ApDrift(s, ops[0]) + ApHalves(Next(s, ops[0]), ops[1..])
  }

  // ---- what every reachable state keeps ----

  ghost predicate LinesInChart(chart: seq<Account>, js: seq<Journal>) {
    forall j, l :: j in js && l in j.lines ==> HasAccount(chart, l.account)
  }

  /** A line names an account of the chart by its id and its code. */
  predicate Named(chart: seq<Account>, l: Line) {
    exists a :: a in chart && a.id == l.account && a.code == l.code
  }

  ghost predicate LinesNamed(chart: seq<Account>, js: seq<Journal>) {
    forall j, l :: j in js && l in j.lines ==> Named(chart, l)
  }

  ghost predicate RowsSane(rows: seq<Row>) {
    && UniqueRows(rows)
    && forall r :: r in rows ==> r.paid >= 0 && r.balance >= 0
  }

  /** Rounded totals of unpaid sales may be anything; row balances stay non-negative only if they are. */
  predicate SaleOk(op: Op) {
    op.Sell? ==> op.sale.total >= 0.0
  }

  ghost predicate Fresh(s: State) {
    && (forall r :: r in s.ar ==> r.id < s.next)
    && (forall r :: r in s.ap ==> r.id < s.next)
    && (forall j :: j in s.journals ==> j.id < s.next)
    && (forall p :: p in s.arPays ==> p.row < s.next)
    && (forall p :: p in s.apPays ==> p.row < s.next)
    && (forall e :: e in s.expenses ==> e.journal < s.next)
  }

  ghost predicate Inv(s: State) {
    && ChartOk(s.chart)
    && LinesNamed(s.chart, s.journals)
    && RowsSane(s.ar) && RowsSane(s.ap)
    && Fresh(s)
    && UniqueJournals(s.journals)
  }

  // ---- appending one journal ----

  lemma NetOnAppend(s: State, s': State, j: Journal, code: string)
    requires s'.chart == s.chart && s'.journals == s.journals + [j]
    ensures NetOn(s', code) == NetOn(s, code) + match AccountByCode(s.chart, code)
                                                  case None => 0
                                                  case Some(a) => JOn(a.id)(j)
  {
    match AccountByCode(s.chart, code)
    case None =>
    case Some(a) => SumAppend(s.journals, j, JOn(a.id));
  }

  lemma PairOnCode(s: State, s': State, id: nat, h: Header, d: Account, c: Account, x: int, dd: string, cd: string, at: int, code: string)
    requires ChartOk(s.chart) && d in s.chart && c in s.chart
    requires s'.chart == s.chart && s'.journals == s.journals + [NewJournal(id, h, Pair(d, c, x, dd, cd, at), at)]
    ensures NetOn(s', code) == NetOn(s, code) + (if d.code == code then x else 0) - (if c.code == code then x else 0)
  {
    var j := NewJournal(id, h, Pair(d, c, x, dd, cd, at), at);
    NetOnAppend(s, s', j, code);
    match AccountByCode(s.chart, code)
    case None =>
    case Some(a) =>
      PairNet(d, c, x, dd, cd, at, a.id);
      SameIdSameAccount(s.chart, a, d);
      SameIdSameAccount(s.chart, a, c);
  }

  lemma RetagNet(s: State, s': State, m: Journal -> Journal, code: string)
    requires s'.chart == s.chart && s'.journals == Map(s.journals, m)
    requires forall j :: m(j).lines == j.lines
    ensures NetOn(s', code) == NetOn(s, code)
  {
    match AccountByCode(s.chart, code)
    case None =>
    case Some(a) => SumMap(s.journals, m, JOn(a.id), JOn(a.id));
  }

  // ---- each request's effect on the gaps ----

  /** A pair of lines and what happened to the rows, seen from the two differences. */
  lemma GapOfPair(s: State, s': State, id: nat, h: Header, d: Account, c: Account, x: int, dd: string, cd: string, at: int,
                  arBy: int, apBy: int)
    requires ChartOk(s.chart) && d in s.chart && c in s.chart && s'.chart == s.chart
    requires s'.journals == s.journals + [NewJournal(id, h, Pair(d, c, x, dd, cd, at), at)]
    requires Sum(s'.ar, Balance()) == Sum(s.ar, Balance()) + arBy && Sum(s'.ap, Balance()) == Sum(s.ap, Balance()) + apBy
    ensures ArGap(s') == ArGap(s) + arBy - (if d.code == RECEIVABLE then x else 0) + (if c.code == RECEIVABLE then x else 0)
    ensures ApGap(s') == ApGap(s) + apBy + (if d.code == PAYABLE then x else 0) - (if c.code == PAYABLE then x else 0)
  {
    PairOnCode(s, s', id, h, d, c, x, dd, cd, at, RECEIVABLE);
    PairOnCode(s, s', id, h, d, c, x, dd, cd, at, PAYABLE);
  }

  lemma OpenReceivableGap(s: State, number: string, amount: real, store: Option<nat>, now: int)
    requires ChartOk(s.chart) && CreateReceivable(s, number, amount, store, now).Ok?
    ensures var s' := CreateReceivable(s, number, amount, store, now).value;
            ArGap(s') == ArGap(s) && ApGap(s') == ApGap(s)
  {
    var recv, rev, h, dd, cd := ReceivableShape(s, number, amount, store, now);
    CodesDiffer();
    SumAppend(s.ar, OpenRow(s.next, number, Round(amount), store, now, ""), Balance());
    GapOfPair(s, CreateReceivable(s, number, amount, store, now).value, s.next + 1, h, recv, rev, Round(amount), dd, cd, now,
              Round(amount), 0);
  }

  lemma ExpenseCodeIsOther(category: string)
    ensures ExpenseCode(category) != RECEIVABLE && ExpenseCode(category) != PAYABLE
    ensures ExpenseCode(category) != CASH && ExpenseCode(category) != BANK
  {
    CodesDiffer();
    assert ExpenseCode(category)[0] == '5';
  }

  lemma OpenPayableGap(s: State, number: string, amount: real, store: Option<nat>, category: string, now: int)
    requires ChartOk(s.chart) && CreatePayable(s, number, amount, store, category, now).Ok?
    ensures var s' := CreatePayable(s, number, amount, store, category, now).value;
            ArGap(s') == ArGap(s) && ApGap(s') == ApGap(s)
  {
    var exp, pay, h := PayableShape(s, number, amount, store, category, now);
    CodesDiffer();
    ExpenseCodeIsOther(category);
    SumAppend(s.ap, OpenRow(s.next, number, Round(amount), store, now, category), Balance());
    GapOfPair(s, CreatePayable(s, number, amount, store, category, now).value, s.next + 1, h, exp, pay, Round(amount),
              number, number, now, 0, Round(amount));
  }

  lemma PaidBalance(rows: seq<Row>, i: nat, x: real)
    requires RowsSane(rows) && i < |rows| && PayRow(rows[i], x).Ok?
    ensures Sum(rows[i := PayRow(rows[i], x).value], Balance()) == Sum(rows, Balance()) - Round(x) + Drift(x)
  {
    assert rows[i] in rows;
    PayRowExact(rows[i], x);
    SumUpdate(rows, i, PayRow(rows[i], x).value, Balance());
  }

  lemma ReceivePaymentGap(s: State, id: nat, x: real, carry: bool, now: int)
    requires ChartOk(s.chart) && RowsSane(s.ar) && PayReceivable(s, id, x, carry, now).Ok?
    ensures var s' := PayReceivable(s, id, x, carry, now).value;
            ArGap(s') == ArGap(s) + Drift(x) && ApGap(s') == ApGap(s)
  {
    var i, cash, recv, h, desc := ReceiptShape(s, id, x, carry, now);
    CodesDiffer();
    PaidBalance(s.ar, i, x);
    GapOfPair(s, PayReceivable(s, id, x, carry, now).value, s.next + 1, h, cash, recv, Round(x), desc, desc, now,
              Drift(x) - Round(x), 0);
  }

  lemma MakePaymentGap(s: State, id: nat, x: real, now: int)
    requires ChartOk(s.chart) && RowsSane(s.ap) && PayPayable(s, id, x, now).Ok?
    ensures var s' := PayPayable(s, id, x, now).value;
            ArGap(s') == ArGap(s) && ApGap(s') == ApGap(s) + Drift(x)
  {
    var i, pay, cash, h, desc := DisbursementShape(s, id, x, now);
    CodesDiffer();
    PaidBalance(s.ap, i, x);
    GapOfPair(s, PayPayable(s, id, x, now).value, s.next + 1, h, pay, cash, Round(x), desc, desc, now, 0, Drift(x) - Round(x));
  }

  lemma SpendGap(s: State, category: string, desc: string, amount: real, store: Option<nat>, now: int)
    requires ChartOk(s.chart) && CreateExpense(s, category, desc, amount, store, now).Ok?
    ensures var s' := CreateExpense(s, category, desc, amount, store, now).value;
            ArGap(s') == ArGap(s) && ApGap(s') == ApGap(s)
  {
    var exp, cash, h := ExpenseShape(s, category, desc, amount, store, now);
    CodesDiffer();
    ExpenseCodeIsOther(category);
    GapOfPair(s, CreateExpense(s, category, desc, amount, store, now).value, s.next, h, exp, cash, Round(amount), desc, desc, now, 0, 0);
  }

  lemma SellNet(s: State, sale: Sale, plan: seq<Planned>, clock: nat -> int, code: string)
    requires ChartOk(s.chart) && Shaped(sale, plan) && PostPlanned(s, sale, plan, clock).Ok?
    requires (code == RECEIVABLE || code == PAYABLE) && !TaxedTo(sale.taxes, code)
    ensures NetOn(PostPlanned(s, sale, plan, clock).value, code)
         == NetOn(s, code) + if AccountByCode(s.chart, code).Some? && DebitCode(sale) == code then Round(sale.total) else 0
  {
    NetOnAppend(s, PostPlanned(s, sale, plan, clock).value,
                NewJournal(s.next, SaleHeader(sale), SaleLines(s.chart, plan, clock), clock(|plan|)), code);
    match AccountByCode(s.chart, code)
    case None =>
    case Some(a) => SaleControl(s.chart, sale, plan, clock, a);
  }

  /** The rows an unpaid sale adds owe what it debits to 1100. */
  lemma SellRows(s: State, sale: Sale, plan: seq<Planned>, clock: nat -> int)
    requires ChartOk(s.chart) && Shaped(sale, plan) && PostPlanned(s, sale, plan, clock).Ok? && !TaxedTo(sale.taxes, RECEIVABLE)
    ensures var s' := PostPlanned(s, sale, plan, clock).value;
            && s'.ap == s.ap
            && Sum(s'.ar, Balance()) == Sum(s.ar, Balance())
               + if !sale.settled && AccountByCode(s.chart, RECEIVABLE).Some? then Round(sale.total) else 0
  {
    if !sale.settled {
      SaleOpensRow(s.chart, sale, plan, clock);
      SumAppend(s.ar, SaleRow(s.next + 1, sale, clock(|plan| + 1)), Balance());
    }
  }

  /** An unpaid sale debits 1100, when the chart has it, by exactly what its new row owes. */
  lemma SellGap(s: State, sale: Sale, plan: seq<Planned>, clock: nat -> int)
    requires ChartOk(s.chart) && Shaped(sale, plan) && PostPlanned(s, sale, plan, clock).Ok?
    requires !TaxedTo(sale.taxes, RECEIVABLE) && !TaxedTo(sale.taxes, PAYABLE)
    ensures var s' := PostPlanned(s, sale, plan, clock).value;
            ArGap(s') == ArGap(s) && ApGap(s') == ApGap(s)
  {
    SellNet(s, sale, plan, clock, PAYABLE);
    SellNet(s, sale, plan, clock, RECEIVABLE);
    SellRows(s, sale, plan, clock);
    CodesDiffer();
  }

  lemma CreditAccountCode(chart: seq<Account>, payBy: string)
    requires CreditAccount(chart, payBy).Some?
    ensures var a := CreditAccount(chart, payBy).value;
            a in chart && (a.code == CASH || a.code == BANK)
  {
  }

  lemma RemitGap(s: State, code: string, x: real, payBy: string, store: Option<nat>, now: int)
    requires ChartOk(s.chart) && RemitTax(s, code, x, payBy, store, now).Ok?
    requires !Listed(s.taxes, RECEIVABLE) && !Listed(s.taxes, PAYABLE)
    ensures var s' := RemitTax(s, code, x, payBy, store, now).value;
            ArGap(s') == ArGap(s) && ApGap(s') == ApGap(s)
  {
    var tax, from := RemitShape(s, code, x, payBy, store, now);
    CodesDiffer();
    CreditAccountCode(s.chart, payBy);
    GapOfPair(s, RemitTax(s, code, x, payBy, store, now).value, s.next, RemitHeader(store), tax, from, Round(x),
              "Tax remitted", "Paid out", now, 0, 0);
  }

  lemma MoveArGap(s: State, id: nat, store: Option<nat>)
    requires MoveReceivable(s, id, store).Ok?
    ensures var s' := MoveReceivable(s, id, store).value;
            ArGap(s') == ArGap(s) && ApGap(s') == ApGap(s)
  {
    var s' := MoveReceivable(s, id, store).value;
    var i := FindRow(s.ar, id).value;
    SumUpdate(s.ar, i, s.ar[i].(store := store), Balance());
    RetagNet(s, s', Retag(id, ReceivableRef, ArPaymentRef, store), RECEIVABLE);
    RetagNet(s, s', Retag(id, ReceivableRef, ArPaymentRef, store), PAYABLE);
  }

  lemma MoveApGap(s: State, id: nat, store: Option<nat>)
    requires MovePayable(s, id, store).Ok?
    ensures var s' := MovePayable(s, id, store).value;
            ArGap(s') == ArGap(s) && ApGap(s') == ApGap(s)
  {
    var s' := MovePayable(s, id, store).value;
    var i := FindRow(s.ap, id).value;
    SumUpdate(s.ap, i, s.ap[i].(store := store), Balance());
    RetagNet(s, s', Retag(id, PayableRef, ApPaymentRef, store), RECEIVABLE);
    RetagNet(s, s', Retag(id, PayableRef, ApPaymentRef, store), PAYABLE);
  }

  lemma MoveCostGap(s: State, id: nat, store: Option<nat>)
    requires MoveExpense(s, id, store).Ok?
    ensures var s' := MoveExpense(s, id, store).value;
            ArGap(s') == ArGap(s) && ApGap(s') == ApGap(s)
  {
    var s' := MoveExpense(s, id, store).value;
    var m := RetagOne(s.expenses[FindExpense(s.expenses, id).value].journal, store);
    RetagNet(s, s', m, RECEIVABLE);
    RetagNet(s, s', m, PAYABLE);
  }

  /** Deleting an account no line uses leaves every balance by code where it was. */
  lemma DropNet(s: State, id: nat, code: string)
    requires ChartOk(s.chart) && DeleteAccount(s, id).Ok?
    ensures NetOn(DeleteAccount(s, id).value, code) == NetOn(s, code)
  {
    var s' := DeleteAccount(s, id).value;
    FilterIn(s.chart, Not(id));
    forall j | j in s.journals
      ensures JOn(id)(j) == 0
    {
      assert !Uses(j, id);
      SumZero(j.lines, OnAccount(id));
    }
    SumZero(s.journals, JOn(id));
    match (AccountByCode(s.chart, code), AccountByCode(s'.chart, code)) {
      case (Some(a), Some(b)) => SameIdSameAccount(s.chart, a, b);
      case _ =>
    }
  }

  predicate Document(op: Op) {
    op.OpenReceivable? || op.OpenPayable? || op.ReceivePayment? || op.MakePayment?
  }

  lemma DocumentGap(s: State, op: Op)
    requires Inv(s) && Document(op) && Step(s, op).Ok?
    ensures ArGap(Next(s, op)) == ArGap(s) + ArDrift(s, op)
    ensures ApGap(Next(s, op)) == ApGap(s) + ApDrift(s, op)
  {
    match op
    case OpenReceivable(number, amount, store, now) => OpenReceivableGap(s, number, amount, store, now);
    case OpenPayable(number, amount, store, category, now) => OpenPayableGap(s, number, amount, store, category, now);
    case ReceivePayment(row, amount, now) => ReceivePaymentGap(s, row, amount, false, now);
    case MakePayment(row, amount, now) => MakePaymentGap(s, row, amount, now);
  }

  lemma OtherGap(s: State, op: Op)
    requires Inv(s) && TaxesOk(s, op) && !Document(op) && Step(s, op).Ok?
    ensures ArGap(Next(s, op)) == ArGap(s) && ApGap(Next(s, op)) == ApGap(s)
  {
    match op
    case Spend(category, desc, amount, store, now) => SpendGap(s, category, desc, amount, store, now);
    case Sell(sale, clock) =>
      RoundIsNearest();
      PlanIsShaped(Round, sale);
      SellGap(s, sale, Plan(Round, sale), clock);
    case Remit(code, amount, payBy, store, now) => RemitGap(s, code, amount, payBy, store, now);
    case MoveAr(row, store) => MoveArGap(s, row, store);
    case MoveAp(row, store) => MoveApGap(s, row, store);
    case MoveCost(expense, store) => MoveCostGap(s, expense, store);
    case DropAccount(account) =>
      DropNet(s, account, RECEIVABLE);
      DropNet(s, account, PAYABLE);
  }

  /** One request moves a gap only by a payment that ends in exactly half a kobo. */
  lemma StepGap(s: State, op: Op)
    requires Inv(s) && TaxesOk(s, op)
    ensures ArGap(Next(s, op)) == ArGap(s) + ArDrift(s, op)
    ensures ApGap(Next(s, op)) == ApGap(s) + ApDrift(s, op)
  {
    if Step(s, op).Ok? {
      if Document(op) {
        DocumentGap(s, op);
      } else {
        OtherGap(s, op);
      }
    }
  }
}
