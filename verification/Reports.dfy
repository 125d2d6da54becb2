/**
 The balance sheet, the trial balance and the profit and loss statement: three
 groupings of the same lines, with their own cut-offs and filters.
 */
module Reports {
  import opened Results
  import opened Sums
  import opened Ledger
  import opened Runs

  // ---- which lines a report counts ----

  /** Posted by the cut-off; a posted line without a stamp counts. */
  function UpTo(at: int): Line -> bool {
    (l: Line) => l.posted && (l.at.None? || l.at.value <= at)
  }

  /** Posted inside an inclusive range; a posted line without a stamp counts. */
  function Between(from: int, to: int): Line -> bool {
    (l: Line) => l.posted && (l.at.None? || from <= l.at.value <= to)
  }

  function Undated(): Line -> bool {
    (l: Line) => l.posted && l.at.None?
  }

  function AtOrUndated(at: int): Line -> bool {
    (l: Line) => l.posted && (l.at.None? || l.at.value == at)
  }

  /** The cut-off is at or after every line's stamp, and every line is posted. */
  ghost predicate Covered(js: seq<Journal>, at: int) {
    forall j, l :: j in js && l in j.lines ==> UpTo(at)(l)
  }

  // ---- one account ----

  function LineIn(a: nat, q: Line -> bool): Line -> int {
    (l: Line) => if l.account == a && q(l) then l.debit - l.credit else 0
  }

  function JIn(a: nat, q: Line -> bool, store: Option<nat>): Journal -> int {
    (j: Journal) => if InStore(j, store) then Sum(j.lines, LineIn(a, q)) else 0
  }

  function NetIn(s: State, a: nat, q: Line -> bool, store: Option<nat>): int {
    Sum(s.journals, JIn(a, q, store))
  }

  function Signed(kind: Kind, net: int): int {
    if kind == Asset || kind == Expense then net else -net
  }

  function AccountBalance(s: State, a: Account, at: int, store: Option<nat>): int {
    Signed(a.kind, NetIn(s, a.id, UpTo(at), store))
  }

  /** Not counted at the cut-off: unposted, or stamped later. */
  function NotYet(at: int): Line -> bool {
    (l: Line) => !l.posted || (l.at.Some? && l.at.value > at)
  }

  /** A cut-off parts an account's lines in two. */
  lemma CutOffParts(s: State, a: nat, at: int, store: Option<nat>, all: Journal -> int)
    requires forall j :: j in s.journals ==> all(j) == if InStore(j, store) then Sum(j.lines, OnAccount(a)) else 0
    ensures Sum(s.journals, all) == NetIn(s, a, UpTo(at), store) + NetIn(s, a, NotYet(at), store)
    ensures Covered(s.journals, at) ==> NetIn(s, a, NotYet(at), store) == 0
  {
    forall j | j in s.journals
      ensures all(j) == JIn(a, UpTo(at), store)(j) + JIn(a, NotYet(at), store)(j)
      ensures Covered(s.journals, at) ==> JIn(a, NotYet(at), store)(j) == 0
    {
      SumPlus(j.lines, OnAccount(a), LineIn(a, UpTo(at)), LineIn(a, NotYet(at)));
      if Covered(s.journals, at) {
        forall l | l in j.lines
          ensures LineIn(a, NotYet(at))(l) == 0
        {
          assert UpTo(at)(l);
        }
        SumZero(j.lines, LineIn(a, NotYet(at)));
      }
    }
    SumPlus(s.journals, all, JIn(a, UpTo(at), store), JIn(a, NotYet(at), store));
    if Covered(s.journals, at) {
      SumZero(s.journals, JIn(a, NotYet(at), store));
    }
  }

  // ---- all accounts of some kinds ----

  function AccountIn(s: State, p: Account -> bool, q: Line -> bool, store: Option<nat>): Account -> int {
    (a: Account) => if p(a) then NetIn(s, a.id, q, store) else 0
  }

  function ChartNet(s: State, p: Account -> bool, q: Line -> bool, store: Option<nat>): int {
    Sum(s.chart, AccountIn(s, p, q, store))
  }

  predicate OfKind(chart: seq<Account>, id: nat, p: Account -> bool) {
    exists a :: a in chart && a.id == id && p(a)
  }

  function LedgerLine(chart: seq<Account>, p: Account -> bool, q: Line -> bool): Line -> int {
    (l: Line) => if q(l) && OfKind(chart, l.account, p) then l.debit - l.credit else 0
  }

  function LedgerJournal(chart: seq<Account>, p: Account -> bool, q: Line -> bool, store: Option<nat>): Journal -> int {
    (j: Journal) => if InStore(j, store) then Sum(j.lines, LedgerLine(chart, p, q)) else 0
  }

  // ---- adding up by account and adding up by journal are the same ----

  function LineValue(p: Account -> bool, q: Line -> bool, a: Account, l: Line): int {
    if p(a) && l.account == a.id && q(l) then l.debit - l.credit else 0
  }

  function OneLine(p: Account -> bool, q: Line -> bool): (Account, Line) -> int {
    (a: Account, l: Line) => LineValue(p, q, a, l)
  }

  lemma LineOnce(chart: seq<Account>, p: Account -> bool, q: Line -> bool, l: Line)
    requires ChartOk(chart)
    ensures Sum(chart, Across(OneLine(p, q), l)) == LedgerLine(chart, p, q)(l)
  {
    var f := Across(OneLine(p, q), l);
    if HasAccount(chart, l.account) {
      var a :| a in chart && a.id == l.account;
      var i :| 0 <= i < |chart| && chart[i] == a;
      SumOnly(chart, i, f);
      assert OfKind(chart, l.account, p) <==> p(a);
    } else {
      assert !OfKind(chart, l.account, p);
      SumZero(chart, f);
    }
  }

  function JournalValue(p: Account -> bool, q: Line -> bool, store: Option<nat>, a: Account, j: Journal): int {
    if p(a) && InStore(j, store) then Sum(j.lines, LineIn(a.id, q)) else 0
  }

  function OneJournal(p: Account -> bool, q: Line -> bool, store: Option<nat>): (Account, Journal) -> int {
    (a: Account, j: Journal) => JournalValue(p, q, store, a, j)
  }

  lemma JournalOnce(chart: seq<Account>, p: Account -> bool, q: Line -> bool, store: Option<nat>, j: Journal)
    requires ChartOk(chart)
    ensures Sum(chart, Across(OneJournal(p, q, store), j)) == LedgerJournal(chart, p, q, store)(j)
  {
    var f := Across(OneJournal(p, q, store), j);
    if InStore(j, store) {
      forall a | a in chart
        ensures f(a) == RowSum(j.lines, OneLine(p, q))(a)
      {
        if p(a) {
          SumSame(j.lines, LineIn(a.id, q), Along(OneLine(p, q), a));
        } else {
          SumZero(j.lines, Along(OneLine(p, q), a));
        }
      }
      SumSame(chart, f, RowSum(j.lines, OneLine(p, q)));
      SumSwap(chart, j.lines, OneLine(p, q));
      forall l | l in j.lines
        ensures ColSum(chart, OneLine(p, q))(l) == LedgerLine(chart, p, q)(l)
      {
        LineOnce(chart, p, q, l);
      }
      SumSame(j.lines, ColSum(chart, OneLine(p, q)), LedgerLine(chart, p, q));
    } else {
      SumZero(chart, f);
    }
  }

  lemma ByAccountIsByJournal(s: State, p: Account -> bool, q: Line -> bool, store: Option<nat>)
    requires ChartOk(s.chart)
    ensures ChartNet(s, p, q, store) == Sum(s.journals, LedgerJournal(s.chart, p, q, store))
  {
    forall a | a in s.chart
      ensures AccountIn(s, p, q, store)(a) == RowSum(s.journals, OneJournal(p, q, store))(a)
    {
      if p(a) {
        SumSame(s.journals, JIn(a.id, q, store), Along(OneJournal(p, q, store), a));
      } else {
        SumZero(s.journals, Along(OneJournal(p, q, store), a));
      }
    }
    SumSame(s.chart, AccountIn(s, p, q, store), RowSum(s.journals, OneJournal(p, q, store)));
    SumSwap(s.chart, s.journals, OneJournal(p, q, store));
    forall j | j in s.journals
      ensures ColSum(s.chart, OneJournal(p, q, store))(j) == LedgerJournal(s.chart, p, q, store)(j)
    {
      JournalOnce(s.chart, p, q, store, j);
    }
    SumSame(s.journals, ColSum(s.chart, OneJournal(p, q, store)), LedgerJournal(s.chart, p, q, store));
  }

  // ---- balance sheet ----

  datatype Sheet = Sheet(
    assets: int, liabilities: int, capital: int, revenue: int, expenses: int, earnings: int, equity: int, check: int,
    arSub: int, arControl: int, arDiff: int, apSub: int, apControl: int, apDiff: int)

  predicate FiveKinds(k: Kind) {
    !k.OtherKind?
  }

  function KindBalance(s: State, k: Kind, at: int, store: Option<nat>): Account -> int {
    (a: Account) => if a.kind == k then AccountBalance(s, a, at, store) else 0
  }

  function KindTotal(s: State, k: Kind, at: int, store: Option<nat>): int {
    Sum(s.chart, KindBalance(s, k, at, store))
  }

  function StoreBalance(store: Option<nat>): Row -> int {
    (r: Row) => if store.None? || r.store == store then r.balance else 0
  }

  function Control(s: State, code: string, at: int, store: Option<nat>): int {
    match AccountByCode(s.chart, code)
    case None => 0
    case Some(a) => AccountBalance(s, a, at, store)
  }

  /** receivable_difference and payable_difference. */
  function ArDiff(s: State, at: int, store: Option<nat>): int {
    Sum(s.ar, StoreBalance(store)) - Control(s, RECEIVABLE, at, store)
  }

  function ApDiff(s: State, at: int, store: Option<nat>): int {
    Sum(s.ap, StoreBalance(store)) - Control(s, PAYABLE, at, store)
  }

  /** What the lines a cut-off does not count leave on the account with this code. */
  function Later(s: State, code: string, at: int, store: Option<nat>): int {
    match AccountByCode(s.chart, code)
    case None => 0
    case Some(a) => NetIn(s, a.id, NotYet(at), store)
  }

  /** balance_check: assets less liabilities less (capital plus earnings). */
  function Check(s: State, at: int, store: Option<nat>): int {
    KindTotal(s, Asset, at, store) - KindTotal(s, Liability, at, store)
    - (KindTotal(s, Equity, at, store) + (KindTotal(s, Revenue, at, store) - KindTotal(s, Expense, at, store)))
  }

  /** get_balance_sheet: one pass over the chart, adding each balance to the total of its kind. */
  method GetBalanceSheet(s: State, at: int, store: Option<nat>) returns (sheet: Sheet)
    ensures sheet.assets == KindTotal(s, Asset, at, store)
    ensures sheet.liabilities == KindTotal(s, Liability, at, store)
    ensures sheet.capital == KindTotal(s, Equity, at, store)
    ensures sheet.revenue == KindTotal(s, Revenue, at, store)
    ensures sheet.expenses == KindTotal(s, Expense, at, store)
    ensures sheet.earnings == sheet.revenue - sheet.expenses
    ensures sheet.check == sheet.assets - sheet.liabilities - (sheet.capital + sheet.earnings)
    ensures sheet.equity == sheet.capital + sheet.earnings
    ensures sheet.arSub == Sum(s.ar, StoreBalance(store)) && sheet.arControl == Control(s, RECEIVABLE, at, store)
    ensures sheet.apSub == Sum(s.ap, StoreBalance(store)) && sheet.apControl == Control(s, PAYABLE, at, store)
    ensures sheet.arDiff == ArDiff(s, at, store) && sheet.apDiff == ApDiff(s, at, store)
    ensures sheet.check == Check(s, at, store)
    ensures ChartOk(s.chart) ==>
              sheet.check == Sum(s.journals, Counted(at, store)) - Sum(s.journals, Stray(s.chart, at, store))
  {
    var asset, liability, equity, revenue, expense := 0, 0, 0, 0, 0;
    var i := 0;
    while i < |s.chart|
      invariant i <= |s.chart|
      invariant asset == Sum(s.chart[..i], KindBalance(s, Asset, at, store))
      invariant liability == Sum(s.chart[..i], KindBalance(s, Liability, at, store))
      invariant equity == Sum(s.chart[..i], KindBalance(s, Equity, at, store))
      invariant revenue == Sum(s.chart[..i], KindBalance(s, Revenue, at, store))
      invariant expense == Sum(s.chart[..i], KindBalance(s, Expense, at, store))
    {
      var a := s.chart[i];
      KindAppend(s, i, Asset, at, store);
      KindAppend(s, i, Liability, at, store);
      KindAppend(s, i, Equity, at, store);
      KindAppend(s, i, Revenue, at, store);
      KindAppend(s, i, Expense, at, store);
      if FiveKinds(a.kind) {
        var balance := AccountBalance(s, a, at, store);
        if balance != 0 {
          match a.kind
          case Asset => asset := asset + balance;
          case Liability => liability := liability + balance;
          case Equity => equity := equity + balance;
          case Revenue => revenue := revenue + balance;
          case Expense => expense := expense + balance;
        }
      }
      i := i + 1;
    }
    assert s.chart[..|s.chart|] == s.chart;
    var earnings := revenue - expense;
    var arSub, apSub := Sum(s.ar, StoreBalance(store)), Sum(s.ap, StoreBalance(store));
    var arControl, apControl := Control(s, RECEIVABLE, at, store), Control(s, PAYABLE, at, store);
    sheet := Sheet(asset, liability, equity, revenue, expense, earnings, equity + earnings,
                   asset - liability - (equity + earnings),
                   arSub, arControl, arSub - arControl, apSub, apControl, apSub - apControl);
    if ChartOk(s.chart) {
      BalanceSheetIdentity(s, at, store);
    }
  }

  lemma KindAppend(s: State, i: nat, k: Kind, at: int, store: Option<nat>)
    requires i < |s.chart|
    ensures Sum(s.chart[..i + 1], KindBalance(s, k, at, store))
         == Sum(s.chart[..i], KindBalance(s, k, at, store)) + KindBalance(s, k, at, store)(s.chart[i])
  {
    assert s.chart[..i + 1] == s.chart[..i] + [s.chart[i]];
    SumAppend(s.chart[..i], s.chart[i], KindBalance(s, k, at, store));
  }

  /** The accounts the report adds up, and those it passes over. */
  function OfFive(): Account -> bool {
    (a: Account) => FiveKinds(a.kind)
  }

  function NotOfFive(): Account -> bool {
    (a: Account) => !FiveKinds(a.kind)
  }

  function Everything(): Account -> bool {
    (a: Account) => true
  }

  function CountedLine(at: int): Line -> int {
    (l: Line) => if UpTo(at)(l) then l.debit - l.credit else 0
  }

  /** Debits less credits of the counted lines of a counted journal. */
  function Counted(at: int, store: Option<nat>): Journal -> int {
    (j: Journal) => if InStore(j, store) then Sum(j.lines, CountedLine(at)) else 0
  }

  function StrayLine(chart: seq<Account>, at: int): Line -> int {
    (l: Line) => if UpTo(at)(l) && !OfKind(chart, l.account, OfFive()) then l.debit - l.credit else 0
  }

  /** The part of that on accounts of no chart, or of none of the five types. */
  function Stray(chart: seq<Account>, at: int, store: Option<nat>): Journal -> int {
    (j: Journal) => if InStore(j, store) then Sum(j.lines, StrayLine(chart, at)) else 0
  }

  /** What the counted lines leave on the chart's accounts of other types. */
  function OtherNet(s: State, at: int, store: Option<nat>): int {
    ChartNet(s, NotOfFive(), UpTo(at), store)
  }

  lemma {:induction false} FiveTotals(s: State, chart: seq<Account>, at: int, store: Option<nat>)
    ensures Sum(chart, KindBalance(s, Asset, at, store)) - Sum(chart, KindBalance(s, Liability, at, store))
          - Sum(chart, KindBalance(s, Equity, at, store)) - Sum(chart, KindBalance(s, Revenue, at, store))
          + Sum(chart, KindBalance(s, Expense, at, store))
         == Sum(chart, AccountIn(s, OfFive(), UpTo(at), store))
  {
    if chart != [] {
      FiveTotals(s, chart[1..], at, store);
    }
  }

  lemma StrayOfJournal(chart: seq<Account>, at: int, store: Option<nat>, j: Journal)
    ensures Counted(at, store)(j) == LedgerJournal(chart, OfFive(), UpTo(at), store)(j) + Stray(chart, at, store)(j)
  {
    SumPlus(j.lines, CountedLine(at), LedgerLine(chart, OfFive(), UpTo(at)), StrayLine(chart, at));
  }

  /**
   The balance sheet's check, for any ledger, cut-off and store: the debits
   less the credits of the counted lines, without those on accounts the report
   passes over.
   */
  lemma BalanceSheetIdentity(s: State, at: int, store: Option<nat>)
    requires ChartOk(s.chart)
    ensures Check(s, at, store) == Sum(s.journals, Counted(at, store)) - Sum(s.journals, Stray(s.chart, at, store))
  {
    FiveTotals(s, s.chart, at, store);
    ByAccountIsByJournal(s, OfFive(), UpTo(at), store);
    forall j | j in s.journals
      ensures Counted(at, store)(j) == LedgerJournal(s.chart, OfFive(), UpTo(at), store)(j) + Stray(s.chart, at, store)(j)
    {
      StrayOfJournal(s.chart, at, store, j);
    }
    SumPlus(s.journals, Counted(at, store), LedgerJournal(s.chart, OfFive(), UpTo(at), store), Stray(s.chart, at, store));
  }

  lemma StrayLineIsOther(chart: seq<Account>, at: int, l: Line)
    requires ChartOk(chart) && HasAccount(chart, l.account)
    ensures StrayLine(chart, at)(l) == LedgerLine(chart, NotOfFive(), UpTo(at))(l)
  {
    var a :| a in chart && a.id == l.account;
    forall b | b in chart && b.id == l.account
      ensures b == a
    {
      SameIdSameAccount(chart, a, b);
    }
    assert OfFive()(a) <==> !NotOfFive()(a);
  }

  /** When every line is in the chart, what strays is what lies on its accounts of other types. */
  lemma StrayIsOtherNet(s: State, at: int, store: Option<nat>)
    requires ChartOk(s.chart) && LinesInChart(s.chart, s.journals)
    ensures Sum(s.journals, Stray(s.chart, at, store)) == OtherNet(s, at, store)
  {
    ByAccountIsByJournal(s, NotOfFive(), UpTo(at), store);
    forall j | j in s.journals
      ensures Stray(s.chart, at, store)(j) == LedgerJournal(s.chart, NotOfFive(), UpTo(at), store)(j)
    {
      forall l | l in j.lines
        ensures StrayLine(s.chart, at)(l) == LedgerLine(s.chart, NotOfFive(), UpTo(at))(l)
      {
        StrayLineIsOther(s.chart, at, l);
      }
      SumSame(j.lines, StrayLine(s.chart, at), LedgerLine(s.chart, NotOfFive(), UpTo(at)));
    }
    SumSame(s.journals, Stray(s.chart, at, store), LedgerJournal(s.chart, NotOfFive(), UpTo(at), store));
  }

  ghost predicate AllFiveKinds(chart: seq<Account>) {
    forall a :: a in chart ==> FiveKinds(a.kind)
  }

  lemma NoOthers(s: State, at: int, store: Option<nat>)
    requires AllFiveKinds(s.chart)
    ensures OtherNet(s, at, store) == 0
  {
    SumZero(s.chart, AccountIn(s, NotOfFive(), UpTo(at), store));
  }

  /** The cut-off falls between two lines of the journal. */
  predicate Split(j: Journal, at: int) {
    (exists l :: l in j.lines && UpTo(at)(l)) && (exists l :: l in j.lines && !UpTo(at)(l))
  }

  /** The counted part of the journals the cut-off splits. */
  function Caught(at: int, store: Option<nat>): Journal -> int {
    (j: Journal) => if InStore(j, store) && Split(j, at) then Sum(j.lines, CountedLine(at)) else 0
  }

  lemma WholeJournalCounts(j: Journal, at: int, store: Option<nat>)
    ensures !Split(j, at) ==> Counted(at, store)(j) == 0 || Counted(at, store)(j) == JNet()(j)
  {
    if forall l :: l in j.lines ==> UpTo(at)(l) {
      SumSame(j.lines, CountedLine(at), Net());
    } else if forall l :: l in j.lines ==> !UpTo(at)(l) {
      SumZero(j.lines, CountedLine(at));
    }
  }

  lemma BalancedAreCaught(js: seq<Journal>, at: int, store: Option<nat>)
    requires forall j :: j in js ==> JNet()(j) == 0
    ensures Sum(js, Counted(at, store)) == Sum(js, Caught(at, store))
  {
    forall j | j in js
      ensures Counted(at, store)(j) == Caught(at, store)(j)
    {
      WholeJournalCounts(j, at, store);
    }
    SumSame(js, Counted(at, store), Caught(at, store));
  }

  /**
   Exactly balanced journals, at every cut-off: the check is what the journals
   split by the cut-off show of themselves, less what lies on the accounts of
   other types.
   */
  lemma BalancedBooksCheck(s: State, at: int, store: Option<nat>)
    requires ChartOk(s.chart) && LinesInChart(s.chart, s.journals)
    requires forall j :: j in s.journals ==> JNet()(j) == 0
    ensures Check(s, at, store) == Sum(s.journals, Caught(at, store)) - OtherNet(s, at, store)
    ensures AllFiveKinds(s.chart) ==> Check(s, at, store) == Sum(s.journals, Caught(at, store))
  {
    BalanceSheetIdentity(s, at, store);
    StrayIsOtherNet(s, at, store);
    BalancedAreCaught(s.journals, at, store);
    if AllFiveKinds(s.chart) {
      NoOthers(s, at, store);
    }
  }

  /** How far an accepted journal may be off, in half kobo: one kobo, and one for each line or half when lines have one side. */
  function Allowance(oneSided: bool): Journal -> int {
    (j: Journal) => if oneSided then 2 + |j.lines| else 2 + 2 * |j.lines|
  }

  ghost predicate Allowed(j: Journal, oneSided: bool) {
    -Allowance(oneSided)(j) <= 2 * JNet()(j) <= Allowance(oneSided)(j)
  }

  /**
   Journals each off by no more than its allowance, at every cut-off: the check
   is off by no more than the sum of the allowances, besides what lies on
   accounts it passes over and what split journals show of themselves.
   */
  lemma CheckWithinTolerance(s: State, at: int, store: Option<nat>, oneSided: bool)
    requires ChartOk(s.chart) && forall j :: j in s.journals ==> Allowed(j, oneSided)
    ensures var off := Check(s, at, store) + Sum(s.journals, Stray(s.chart, at, store)) - Sum(s.journals, Caught(at, store));
            -Sum(s.journals, Allowance(oneSided)) <= 2 * off <= Sum(s.journals, Allowance(oneSided))
    ensures AllFiveKinds(s.chart) && LinesInChart(s.chart, s.journals) ==>
            var off := Check(s, at, store) - Sum(s.journals, Caught(at, store));
            -Sum(s.journals, Allowance(oneSided)) <= 2 * off <= Sum(s.journals, Allowance(oneSided))
  {
    BalanceSheetIdentity(s, at, store);
    CountedWithinTolerance(s.journals, at, store, oneSided);
    if AllFiveKinds(s.chart) && LinesInChart(s.chart, s.journals) {
      StrayIsOtherNet(s, at, store);
      NoOthers(s, at, store);
    }
  }

  lemma {:induction false} CountedWithinTolerance(js: seq<Journal>, at: int, store: Option<nat>, oneSided: bool)
    requires forall j :: j in js ==> Allowed(j, oneSided)
    ensures var off := Sum(js, Counted(at, store)) - Sum(js, Caught(at, store));
            -Sum(js, Allowance(oneSided)) <= 2 * off <= Sum(js, Allowance(oneSided))
  {
    if js != [] {
      assert Allowed(js[0], oneSided);
      WholeJournalCounts(js[0], at, store);
      CountedWithinTolerance(js[1..], at, store, oneSided);
    }
  }
}
