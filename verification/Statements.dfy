/** fn_profit_and_loss and fn_trial_balance, held against the balance sheet. */
module Statements {
  import opened Results
  import opened Sums
  import opened Ledger
  import opened Reports

  /** Ticks of the clock in one day. */
  const DAY := 86400000000

  // ---- the same lines counted through different windows ----

  function Ind(q: Line -> bool, l: Line): int {
    if q(l) then 1 else 0
  }

  /** Every line is counted as often by the first two windows as by the last two. */
  ghost predicate SameWindows(a: Line -> bool, b: Line -> bool, c: Line -> bool, d: Line -> bool) {
    forall l :: Ind(a, l) + Ind(b, l) == Ind(c, l) + Ind(d, l)
  }

  lemma WindowsOnAccount(s: State, id: nat, a: Line -> bool, b: Line -> bool, c: Line -> bool, d: Line -> bool, store: Option<nat>)
    requires SameWindows(a, b, c, d)
    ensures NetIn(s, id, a, store) + NetIn(s, id, b, store) == NetIn(s, id, c, store) + NetIn(s, id, d, store)
  {
    forall j: Journal
      ensures JIn(id, a, store)(j) + JIn(id, b, store)(j) == JIn(id, c, store)(j) + JIn(id, d, store)(j)
    {
      forall l | l in j.lines
        ensures LineIn(id, a)(l) + LineIn(id, b)(l) == LineIn(id, c)(l) + LineIn(id, d)(l)
      {
        assert Ind(a, l) + Ind(b, l) == Ind(c, l) + Ind(d, l);
      }
      SumCross(j.lines, LineIn(id, a), LineIn(id, b), LineIn(id, c), LineIn(id, d));
    }
    SumCross(s.journals, JIn(id, a, store), JIn(id, b, store), JIn(id, c, store), JIn(id, d, store));
  }

  function ProfitKind(): Account -> bool {
    (a: Account) => a.kind == Revenue || a.kind == Expense
  }

  /** Revenue less expense of the lines in a window. */
  function Profit(s: State, q: Line -> bool, store: Option<nat>): int {
    -ChartNet(s, ProfitKind(), q, store)
  }

  lemma WindowsOfProfit(s: State, a: Line -> bool, b: Line -> bool, c: Line -> bool, d: Line -> bool, store: Option<nat>)
    requires SameWindows(a, b, c, d)
    ensures Profit(s, a, store) + Profit(s, b, store) == Profit(s, c, store) + Profit(s, d, store)
  {
    forall x | x in s.chart
      ensures AccountIn(s, ProfitKind(), a, store)(x) + AccountIn(s, ProfitKind(), b, store)(x)
           == AccountIn(s, ProfitKind(), c, store)(x) + AccountIn(s, ProfitKind(), d, store)(x)
    {
      WindowsOnAccount(s, x.id, a, b, c, d, store);
    }
    SumCross(s.chart, AccountIn(s, ProfitKind(), a, store), AccountIn(s, ProfitKind(), b, store),
             AccountIn(s, ProfitKind(), c, store), AccountIn(s, ProfitKind(), d, store));
  }

  // ---- profit and loss ----

  datatype PnlRow = PnlRow(kind: Kind, code: string, amount: int)

  function ToPnl(s: State, q: Line -> bool, store: Option<nat>): Account -> PnlRow {
    (a: Account) =>
      PnlRow(a.kind, a.code, if a.kind == Revenue then -NetIn(s, a.id, q, store) else NetIn(s, a.id, q, store))
  }

  function NonZero(): PnlRow -> bool {
    (r: PnlRow) => r.amount != 0
  }

  function Window(fromDay: int, toDay: int): Line -> bool {
    Between(fromDay * DAY, (toDay + 1) * DAY)
  }

  /** The query: revenue and expense accounts, zero rows dropped, the cut-off at the midnight after the last day. */
  function ProfitAndLoss(s: State, fromDay: int, toDay: int, store: Option<nat>): seq<PnlRow> {
    Filter(Map(Filter(s.chart, ProfitKind()), ToPnl(s, Window(fromDay, toDay), store)), NonZero())
  }

  function SignedAmount(): PnlRow -> int {
    (r: PnlRow) => if r.kind == Revenue then r.amount else -r.amount
  }

  /** total_revenue less total_expenses of the response. */
  function PnlNet(s: State, fromDay: int, toDay: int, store: Option<nat>): int {
    Sum(ProfitAndLoss(s, fromDay, toDay, store), SignedAmount())
  }

  function Negated(f: Account -> int): Account -> int {
    (a: Account) => -f(a)
  }

  lemma {:induction false} SumNegated(s: seq<Account>, f: Account -> int)
    ensures Sum(s, Negated(f)) == -Sum(s, f)
  {
    if s != [] {
      SumNegated(s[1..], f);
    }
  }

  /** Leaving out the accounts with nothing to show changes nothing: listed accounts add up to the profit. */
  lemma ListedIsProfit(s: State, q: Line -> bool, store: Option<nat>)
    ensures Sum(Map(Filter(s.chart, ProfitKind()), ToPnl(s, q, store)), SignedAmount())
         == -Sum(s.chart, AccountIn(s, ProfitKind(), q, store))
  {
    var accounts := Filter(s.chart, ProfitKind());
    var all := AccountIn(s, ProfitKind(), q, store);
    FilterIn(s.chart, ProfitKind());
    SumMap(accounts, ToPnl(s, q, store), SignedAmount(), Negated(all));
    FilterSum(s.chart, ProfitKind(), Negated(all), Negated(all));
    SumNegated(s.chart, all);
  }

  lemma PnlIsProfit(s: State, fromDay: int, toDay: int, store: Option<nat>)
    ensures PnlNet(s, fromDay, toDay, store) == Profit(s, Window(fromDay, toDay), store)
  {
    var q := Window(fromDay, toDay);
    FilterSum(Map(Filter(s.chart, ProfitKind()), ToPnl(s, q, store)), NonZero(), SignedAmount(), SignedAmount());
    ListedIsProfit(s, q, store);
  }

  lemma MapIn<T, U>(s: seq<T>, m: T -> U, y: U)
    ensures y in Map(s, m) <==> exists x :: x in s && m(x) == y
  {
    if y in Map(s, m) {
      var i :| 0 <= i < |s| && Map(s, m)[i] == y;
      assert s[i] in s;
    }
    if x :| x in s && m(x) == y {
      var i :| 0 <= i < |s| && s[i] == x;
      assert Map(s, m)[i] == y;
    }
  }

  /** A revenue account is shown credits less debits, an expense account debits less credits, over the lines in the range. */
  ghost predicate PnlRowOf(s: State, a: Account, fromDay: int, toDay: int, store: Option<nat>, r: PnlRow) {
    && (a.kind == Revenue || a.kind == Expense) && r.kind == a.kind && r.code == a.code
    && var net := Sum(s.journals, JIn(a.id, Window(fromDay, toDay), store)); r.amount == if a.kind == Revenue then -net else net
  }

  /** The statement lists a revenue or expense account exactly when its figure is not zero. */
  lemma PnlRows(s: State, fromDay: int, toDay: int, store: Option<nat>, r: PnlRow)
    ensures r in ProfitAndLoss(s, fromDay, toDay, store) <==>
      (exists a :: a in s.chart && PnlRowOf(s, a, fromDay, toDay, store, r)) && r.amount != 0
  {
    var toRow := ToPnl(s, Window(fromDay, toDay), store);
    FilterIn(s.chart, ProfitKind());
    FilterIn(Map(Filter(s.chart, ProfitKind()), toRow), NonZero());
    MapIn(Filter(s.chart, ProfitKind()), toRow, r);
    forall a | a in s.chart
      ensures PnlRowOf(s, a, fromDay, toDay, store, r) <==> ProfitKind()(a) && toRow(a) == r
    {
    }
  }

  lemma {:induction false} EarningsIsProfit(s: State, chart: seq<Account>, at: int, store: Option<nat>)
    ensures Sum(chart, KindBalance(s, Revenue, at, store)) - Sum(chart, KindBalance(s, Expense, at, store))
         == -Sum(chart, AccountIn(s, ProfitKind(), UpTo(at), store))
  {
    if chart != [] {
      EarningsIsProfit(s, chart[1..], at, store);
    }
  }

  /** current_earnings of the balance sheet. */
  function Earnings(s: State, at: int, store: Option<nat>): int {
    KindTotal(s, Revenue, at, store) - KindTotal(s, Expense, at, store)
  }

  /**
   The statement over a range is the balance sheet's earnings at the inclusive
   cut-off less the earnings strictly before the start; lines without a stamp
   are in all three, so they are counted once more here.
   */
  lemma ProfitIsEarningsDifference(s: State, fromDay: int, toDay: int, store: Option<nat>)
    requires fromDay <= toDay + 1
    ensures PnlNet(s, fromDay, toDay, store)
         == Earnings(s, (toDay + 1) * DAY, store) - Earnings(s, fromDay * DAY - 1, store) + Profit(s, Undated(), store)
  {
    PnlIsProfit(s, fromDay, toDay, store);
    EarningsIsProfit(s, s.chart, (toDay + 1) * DAY, store);
    EarningsIsProfit(s, s.chart, fromDay * DAY - 1, store);
    WindowsOfProfit(s, Window(fromDay, toDay), UpTo(fromDay * DAY - 1), UpTo((toDay + 1) * DAY), Undated(), store);
  }

  /** Two adjacent ranges add up to the joined range plus exactly the lines stamped at the shared midnight (or unstamped). */
  lemma AdjacentRanges(s: State, fromDay: int, mid: int, toDay: int, store: Option<nat>)
    requires fromDay <= mid + 1 && mid <= toDay
    ensures PnlNet(s, fromDay, mid, store) + PnlNet(s, mid + 1, toDay, store)
         == PnlNet(s, fromDay, toDay, store) + Profit(s, AtOrUndated((mid + 1) * DAY), store)
  {
    PnlIsProfit(s, fromDay, mid, store);
    PnlIsProfit(s, mid + 1, toDay, store);
    PnlIsProfit(s, fromDay, toDay, store);
    WindowsOfProfit(s, Window(fromDay, mid), Window(mid + 1, toDay), Window(fromDay, toDay), AtOrUndated((mid + 1) * DAY), store);
  }

  // ---- trial balance ----

  datatype TrialRow = TrialRow(kind: Kind, code: string, debit: int, credit: int)

  function DebitIn(a: nat, q: Line -> bool): Line -> int {
    (l: Line) => if l.account == a && q(l) then l.debit else 0
  }

  function CreditIn(a: nat, q: Line -> bool): Line -> int {
    (l: Line) => if l.account == a && q(l) then l.credit else 0
  }

  function JDebitIn(a: nat, q: Line -> bool, store: Option<nat>): Journal -> int {
    (j: Journal) => if InStore(j, store) then Sum(j.lines, DebitIn(a, q)) else 0
  }

  function JCreditIn(a: nat, q: Line -> bool, store: Option<nat>): Journal -> int {
    (j: Journal) => if InStore(j, store) then Sum(j.lines, CreditIn(a, q)) else 0
  }

  function ToTrial(s: State, q: Line -> bool, store: Option<nat>): Account -> TrialRow {
    (a: Account) =>
      TrialRow(a.kind, a.code, Sum(s.journals, JDebitIn(a.id, q, store)), Sum(s.journals, JCreditIn(a.id, q, store)))
  }

  /** The HAVING clause. */
  function Shown(): TrialRow -> bool {
    (r: TrialRow) => r.debit > 0 || r.credit > 0
  }

  function TrialBalance(s: State, at: int, store: Option<nat>): seq<TrialRow> {
    Filter(Map(s.chart, ToTrial(s, UpTo(at), store)), Shown())
  }

  lemma TrialIsNet(s: State, a: Account, q: Line -> bool, store: Option<nat>)
    ensures ToTrial(s, q, store)(a).debit - ToTrial(s, q, store)(a).credit == NetIn(s, a.id, q, store)
  {
    forall j: Journal
      ensures JDebitIn(a.id, q, store)(j) == JIn(a.id, q, store)(j) + JCreditIn(a.id, q, store)(j)
    {
      SumPlus(j.lines, DebitIn(a.id, q), LineIn(a.id, q), CreditIn(a.id, q));
    }
    SumPlus(s.journals, JDebitIn(a.id, q, store), JIn(a.id, q, store), JCreditIn(a.id, q, store));
  }

  /** Posted by the cut-off, or posted and never stamped. */
  predicate IsCounted(l: Line, at: int) {
    l.posted && match l.at case None => true case Some(t) => t <= at
  }

  /** One gross side of the counted lines on an account. */
  function Gross(a: nat, at: int, debits: bool): Line -> int {
    (l: Line) => if l.account != a || !IsCounted(l, at) then 0 else if debits then l.debit else l.credit
  }

  function JGross(a: nat, at: int, store: Option<nat>, debits: bool): Journal -> int {
    (j: Journal) => if store == None || j.store == store then Sum(j.lines, Gross(a, at, debits)) else 0
  }

  lemma GrossSides(s: State, a: Account, at: int, store: Option<nat>)
    ensures var r := ToTrial(s, UpTo(at), store)(a);
            r.debit == Sum(s.journals, JGross(a.id, at, store, true)) && r.credit == Sum(s.journals, JGross(a.id, at, store, false))
  {
    forall j | j in s.journals
      ensures JDebitIn(a.id, UpTo(at), store)(j) == JGross(a.id, at, store, true)(j)
      ensures JCreditIn(a.id, UpTo(at), store)(j) == JGross(a.id, at, store, false)(j)
    {
      SumSame(j.lines, DebitIn(a.id, UpTo(at)), Gross(a.id, at, true));
      SumSame(j.lines, CreditIn(a.id, UpTo(at)), Gross(a.id, at, false));
    }
    SumSame(s.journals, JDebitIn(a.id, UpTo(at), store), JGross(a.id, at, store, true));
    SumSame(s.journals, JCreditIn(a.id, UpTo(at), store), JGross(a.id, at, store, false));
  }

  /** The row of an account: its type, its code, its gross debits and its gross credits. */
  ghost predicate TrialRowOf(s: State, a: Account, at: int, store: Option<nat>, r: TrialRow) {
    && r.kind == a.kind && r.code == a.code
    && r.debit == Sum(s.journals, JGross(a.id, at, store, true))
    && r.credit == Sum(s.journals, JGross(a.id, at, store, false))
  }

  lemma TrialRowIs(s: State, a: Account, at: int, store: Option<nat>, r: TrialRow)
    ensures TrialRowOf(s, a, at, store, r) <==> r == ToTrial(s, UpTo(at), store)(a)
  {
    GrossSides(s, a, at, store);
  }

  ghost predicate NonNegativeLines(js: seq<Journal>) {
    forall j, l :: j in js && l in j.lines ==> l.debit >= 0 && l.credit >= 0
  }

  lemma TrialNonNegative(s: State, a: Account, q: Line -> bool, store: Option<nat>)
    requires NonNegativeLines(s.journals)
    ensures ToTrial(s, q, store)(a).debit >= 0 && ToTrial(s, q, store)(a).credit >= 0
  {
    forall j | j in s.journals
      ensures JDebitIn(a.id, q, store)(j) >= 0 && JCreditIn(a.id, q, store)(j) >= 0
    {
      SumNonNegative(j.lines, DebitIn(a.id, q));
      SumNonNegative(j.lines, CreditIn(a.id, q));
    }
    SumNonNegative(s.journals, JDebitIn(a.id, q, store));
    SumNonNegative(s.journals, JCreditIn(a.id, q, store));
  }

  /** The trial balance lists an account exactly when something counted was booked to it, with its gross debits and credits. */
  lemma TrialRows(s: State, at: int, store: Option<nat>, r: TrialRow)
    requires NonNegativeLines(s.journals)
    ensures r in TrialBalance(s, at, store) <==>
      (exists a :: a in s.chart && TrialRowOf(s, a, at, store, r)) && (r.debit != 0 || r.credit != 0)
  {
    var toRow := ToTrial(s, UpTo(at), store);
    FilterIn(Map(s.chart, toRow), Shown());
    MapIn(s.chart, toRow, r);
    forall a | a in s.chart
      ensures TrialRowOf(s, a, at, store, r) <==> r == toRow(a)
      ensures toRow(a).debit >= 0 && toRow(a).credit >= 0
    {
      TrialRowIs(s, a, at, store, r);
      TrialNonNegative(s, a, UpTo(at), store);
    }
  }

  function TrialNet(): TrialRow -> int {
    (r: TrialRow) => r.debit - r.credit
  }

  function TrialSigned(k: Kind): TrialRow -> int {
    (r: TrialRow) => if r.kind == k then Signed(r.kind, r.debit - r.credit) else 0
  }

  lemma ShownLosesNothing(s: State, at: int, store: Option<nat>, f: TrialRow -> int)
    requires NonNegativeLines(s.journals)
    requires forall r: TrialRow :: r.debit == 0 && r.credit == 0 ==> f(r) == 0
    ensures Sum(TrialBalance(s, at, store), f) == Sum(Map(s.chart, ToTrial(s, UpTo(at), store)), f)
  {
    var rows := Map(s.chart, ToTrial(s, UpTo(at), store));
    forall r | r in rows
      ensures Shown()(r) || f(r) == 0
    {
      var k :| 0 <= k < |rows| && rows[k] == r;
      TrialNonNegative(s, s.chart[k], UpTo(at), store);
    }
    FilterSum(rows, Shown(), f, f);
  }

  /**
   Total debits less total credits of the trial balance is the balance sheet's
   check plus what lies on accounts of other types, which only the trial balance
   lists: the two agree exactly when that is zero, as it is without such accounts.
   */
  lemma TrialBalanceIsTheCheck(s: State, at: int, store: Option<nat>)
    requires NonNegativeLines(s.journals)
    ensures Sum(TrialBalance(s, at, store), TrialNet()) == Check(s, at, store) + OtherNet(s, at, store)
    ensures AllFiveKinds(s.chart) ==> Sum(TrialBalance(s, at, store), TrialNet()) == Check(s, at, store)
  {
    ShownLosesNothing(s, at, store, TrialNet());
    forall a | a in s.chart
      ensures TrialNet()(ToTrial(s, UpTo(at), store)(a)) == AccountIn(s, Everything(), UpTo(at), store)(a)
    {
      TrialIsNet(s, a, UpTo(at), store);
    }
    SumMap(s.chart, ToTrial(s, UpTo(at), store), TrialNet(), AccountIn(s, Everything(), UpTo(at), store));
    SumPlus(s.chart, AccountIn(s, Everything(), UpTo(at), store), AccountIn(s, OfFive(), UpTo(at), store),
            AccountIn(s, NotOfFive(), UpTo(at), store));
    FiveTotals(s, s.chart, at, store);
    if AllFiveKinds(s.chart) {
      NoOthers(s, at, store);
    }
  }

  /** Re-signed by account type, the trial balance gives every total of the balance sheet at the same cut-off. */
  lemma TrialBalanceIsTheSheet(s: State, k: Kind, at: int, store: Option<nat>)
    requires NonNegativeLines(s.journals)
    ensures Sum(TrialBalance(s, at, store), TrialSigned(k)) == KindTotal(s, k, at, store)
  {
    ShownLosesNothing(s, at, store, TrialSigned(k));
    forall a | a in s.chart
      ensures TrialSigned(k)(ToTrial(s, UpTo(at), store)(a)) == KindBalance(s, k, at, store)(a)
    {
      TrialIsNet(s, a, UpTo(at), store);
    }
    SumMap(s.chart, ToTrial(s, UpTo(at), store), TrialSigned(k), KindBalance(s, k, at, store));
  }

  // ---- dashboard ----

  function Outstanding(store: Option<nat>): Row -> int {
    (r: Row) =>
      if (r.status == Pending || r.status == Overdue || r.status == Partial) && (store.None? || r.store == store)
      then r.balance else 0
  }

  ghost predicate PaidIsSettled(rows: seq<Row>) {
    forall r :: r in rows && r.status == Paid ==> r.balance == 0
  }

  /** Balances the sub-ledger sum still counts on rows marked paid. */
  function OnPaid(store: Option<nat>): Row -> int {
    (r: Row) => if r.status == Paid && (store.None? || r.store == store) then r.balance else 0
  }

  /** For any rows, the dashboard leaves out exactly what is left on rows marked paid. */
  lemma DashboardLeavesOutPaid(rows: seq<Row>, store: Option<nat>)
    ensures Sum(rows, StoreBalance(store)) == Sum(rows, Outstanding(store)) + Sum(rows, OnPaid(store))
  {
    SumPlus(rows, StoreBalance(store), Outstanding(store), OnPaid(store));
  }

  /** The dashboard's status filter drops nothing the sub-ledger counts. */
  lemma DashboardIsSubLedger(rows: seq<Row>, store: Option<nat>)
    requires PaidIsSettled(rows)
    ensures Sum(rows, Outstanding(store)) == Sum(rows, StoreBalance(store))
  {
    SumSame(rows, Outstanding(store), StoreBalance(store));
  }
}
