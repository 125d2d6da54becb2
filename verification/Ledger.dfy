/**
 The tables of one tenant's books. Amounts are whole kobo, times are ticks of
 the database clock, and a random UUID is a number drawn from a counter.
 A journal carries its own lines, which is the join on journal_id.
 */
module Ledger {
  import opened Results
  import opened Sums

  const CASH := "1000"
  const BANK := "1010"
  const RECEIVABLE := "1100"
  const INVENTORY := "1200"
  const PAYABLE := "2000"
  const VAT := "2300"
  const OTHER_TAX := "2400"
  const REVENUE := "4000"
  const COGS := "5000"

  datatype Kind = Asset | Liability | Equity | Revenue | Expense | OtherKind(name: string)

  datatype Account = Account(id: nat, code: string, kind: Kind)

  datatype Line = Line(
    account: nat, code: string, debit: int, credit: int, desc: string, posted: bool, at: Option<int>)

  datatype RefKind =
    | SaleRef
    | ReceivableRef
    | PayableRef
    | ArPaymentRef
    | ApPaymentRef
    | ArReversalRef
    | TaxRemittanceRef
    | NoRef
    | OtherRef(name: string)

  datatype Journal = Journal(
    id: nat, desc: string, ref: Option<nat>, kind: RefKind, posted: bool, at: Option<int>,
    store: Option<nat>, lines: seq<Line>)

  datatype Status = Pending | Overdue | Partial | Paid

  /** One receivable or payable. */
  datatype Row = Row(
    id: nat, number: string, amount: int, paid: int, balance: int, status: Status,
    store: Option<nat>, createdAt: int, category: string)

  datatype Payment = Payment(id: nat, row: nat, amount: int)

  datatype ExpenseRow = ExpenseRow(id: nat, category: string, amount: int, store: Option<nat>, journal: nat)

  datatype Tax = Tax(name: string, code: Option<string>, active: bool)

  datatype State = State(
    chart: seq<Account>, journals: seq<Journal>, ar: seq<Row>, ap: seq<Row>,
    arPays: seq<Payment>, apPays: seq<Payment>, expenses: seq<ExpenseRow>, taxes: seq<Tax>, next: nat)

  function Empty(chart: seq<Account>, taxes: seq<Tax>, next: nat): State {
    State(chart, [], [], [], [], [], [], taxes, next)
  }

  // ---- the chart of accounts ----

  function AccountByCode(chart: seq<Account>, code: string): (a: Option<Account>)
    ensures a.Some? ==> a.value in chart && a.value.code == code
    ensures a.None? ==> forall x :: x in chart ==> x.code != code
  {
    if chart == [] then None
    else if chart[0].code == code then Some(chart[0])
    else AccountByCode(chart[1..], code)
  }

  predicate HasAccount(chart: seq<Account>, id: nat) {
    exists a :: a in chart && a.id == id
  }

  /** Primary keys, and the documented one-account-per-code rule (app/accounting/models.py:56). */
  ghost predicate ChartOk(chart: seq<Account>) {
    && (forall i, j :: 0 <= i < j < |chart| ==> chart[i].id != chart[j].id)
    && (forall i, j :: 0 <= i < j < |chart| ==> chart[i].code != chart[j].code)
    && (forall a :: a in chart && a.code == RECEIVABLE ==> a.kind == Asset)
    && (forall a :: a in chart && a.code == PAYABLE ==> a.kind == Liability)
  }

  lemma SameIdSameAccount(chart: seq<Account>, a: Account, b: Account)
    requires ChartOk(chart) && a in chart && b in chart
    ensures a.id == b.id <==> a == b
    ensures a.code == b.code <==> a == b
  {
    var i :| 0 <= i < |chart| && chart[i] == a;
    var k :| 0 <= k < |chart| && chart[k] == b;
  }

  /** The account a tax is booked to: the one it names, or 2400 when it names none. */
  predicate TaxAccountIs(named: Option<string>, code: string) {
    if named.None? || named.value == "" then code == "2400" else named.value == code
  }

  // ---- net amounts ----

  function Net(): Line -> int {
    (l: Line) => l.debit - l.credit
  }

  function OnAccount(a: nat): Line -> int {
    (l: Line) => if l.account == a then l.debit - l.credit else 0
  }

  function JNet(): Journal -> int {
    (j: Journal) => Sum(j.lines, Net())
  }

  function JOn(a: nat): Journal -> int {
    (j: Journal) => Sum(j.lines, OnAccount(a))
  }

  /** Debits less credits of the account with this code; 0 when there is none. */
  function NetOn(s: State, code: string): int {
    match AccountByCode(s.chart, code)
    case None => 0
    case Some(a) => Sum(s.journals, JOn(a.id))
  }

  /** A report for one store counts that store's journals; without a store it counts all. */
  predicate InStore(j: Journal, store: Option<nat>) {
    store.None? || j.store == store
  }

  // ---- receivables and payables ----

  function Balance(): Row -> int {
    (r: Row) => r.balance
  }

  function PaidOn(row: nat): Payment -> int {
    (p: Payment) => if p.row == row then p.amount else 0
  }

  function FindRow(rows: seq<Row>, id: nat): (i: Option<nat>)
    ensures i.Some? ==> i.value < |rows| && rows[i.value].id == id
    ensures i.None? ==> forall r :: r in rows ==> r.id != id
  {
    if rows == [] then None
    else if rows[0].id == id then Some(0)
    else match FindRow(rows[1..], id)
         case None => None
         case Some(k) => Some(k + 1)
  }

  ghost predicate UniqueRows(rows: seq<Row>) {
    forall i, j :: 0 <= i < j < |rows| ==> rows[i].id != rows[j].id
  }

  ghost predicate UniqueJournals(js: seq<Journal>) {
    forall i, j :: 0 <= i < j < |js| ==> js[i].id != js[j].id
  }
}
