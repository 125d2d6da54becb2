/** The chart of accounts a new business is given, and that no request is refused on it for a missing account. */
module Seed {
  import opened Results
  import opened Ledger
  import opened SubLedger
  import opened Sales
  import opened SalePosting
  import opened Fallback
  import opened Effects

  /** DEFAULT_ACCOUNTS, in its order. */
  function SeededChart(): seq<Account> {
    [ Account(1, "1000", Asset), Account(2, "1010", Asset), Account(3, "1100", Asset), Account(4, "1200", Asset),
      Account(5, "1300", Asset), Account(6, "1500", Asset), Account(7, "2000", Liability), Account(8, "2100", Liability),
      Account(9, "2200", Liability), Account(10, "2300", Liability), Account(11, "2400", Liability), Account(12, "3000", Equity),
      Account(13, "3100", Equity), Account(14, "4000", Revenue), Account(15, "4100", Revenue), Account(16, "4200", Revenue),
      Account(17, "5000", Expense), Account(18, "5100", Expense), Account(19, "5200", Expense), Account(20, "5300", Expense),
      Account(21, "5400", Expense), Account(22, "5500", Expense), Account(23, "5600", Expense), Account(24, "5700", Expense),
      Account(25, "5800", Expense), Account(26, "5900", Expense) ]
  }

  ghost predicate Seeded(chart: seq<Account>) {
    |chart| == |SeededChart()| && forall i :: 0 <= i < |chart| ==> chart[i] == SeededChart()[i]
  }

  /** The categories of EXPENSE_CATEGORY_ACCOUNT_MAP and their accounts. */
  function Categories(): seq<(string, string)> {
    [ ("rent", "5100"), ("utilities", "5200"), ("salaries", "5300"), ("supplies", "5400"), ("transport", "5500"),
      ("marketing", "5600"), ("bank_charges", "5700"), ("phone_internet", "5800"), ("maintenance", "5900"),
      ("insurance", "5900"), ("taxes", "5900"), ("other", "5900") ]
  }

  /** The database functions book every category of the map to the account the map names. */
  lemma CategoriesAgree(k: nat)
    requires k < |Categories()|
    ensures ExpenseCode(Categories()[k].0) == Categories()[k].1
  {
    var c := Categories()[k].0;
    assert "utilities" != "rent" && "salaries" != "rent" && "maintenance" != "marketing";
    assert c == "supplies" ==> c[1] == 'u' && "salaries"[1] == 'a';
    assert c == "taxes" ==> |c| == 5;
    assert "transport"[2] == 'a' && "insurance"[0] == 'i';
  }

  /** Codes as numbers, to tell them apart. */
  function Num(code: string): int {
    if |code| != 4 then 0
    else (code[0] as int) * 1000 + (code[1] as int) * 100 + (code[2] as int) * 10 + code[3] as int
  }

  lemma SeedRises(i: nat)
    requires i + 1 < |SeededChart()|
    ensures Num(SeededChart()[i].code) < Num(SeededChart()[i + 1].code) && SeededChart()[i].id < SeededChart()[i + 1].id
  {
  }

  lemma {:induction false} SeedInOrder(i: nat, k: nat)
    requires i < k < |SeededChart()|
    ensures Num(SeededChart()[i].code) < Num(SeededChart()[k].code) && SeededChart()[i].id < SeededChart()[k].id
    decreases k - i
  {
    SeedRises(i);
    if i + 1 < k {
      SeedInOrder(i + 1, k);
    }
  }

  lemma OneOfEach(i: nat, k: nat)
    requires i < |SeededChart()| && k < |SeededChart()| && (SeededChart()[i].code == SeededChart()[k].code || SeededChart()[i].id == SeededChart()[k].id)
    ensures i == k
  {
    if i < k {
      SeedInOrder(i, k);
    } else if k < i {
      SeedInOrder(k, i);
    }
  }

  lemma FoundAt(chart: seq<Account>, i: nat)
    requires i < |chart| && forall k :: 0 <= k < |chart| && chart[k].code == chart[i].code ==> k == i
    ensures AccountByCode(chart, chart[i].code) == Some(chart[i])
  {
    var found := AccountByCode(chart, chart[i].code);
    assert chart[i] in chart;
    var k :| 0 <= k < |chart| && chart[k] == found.value;
  }

  /** The account at this place of the chart, found by its code. */
  lemma SeedHas(chart: seq<Account>, i: nat, a: Account)
    requires Seeded(chart) && i < |SeededChart()| && a == SeededChart()[i]
    ensures AccountByCode(chart, a.code) == Some(a)
  {
    forall k | 0 <= k < |chart| && chart[k].code == chart[i].code
      ensures k == i
    {
      OneOfEach(i, k);
    }
    FoundAt(chart, i);
  }

  lemma SeedKindsOk(k: nat)
    requires k < |SeededChart()|
    ensures SeededChart()[k].code == "1100" ==> SeededChart()[k].kind == Asset
    ensures SeededChart()[k].code == "2000" ==> SeededChart()[k].kind == Liability
  {
    assert SeededChart()[2].code == "1100" && SeededChart()[6].code == "2000";
    if SeededChart()[k].code == "1100" {
      OneOfEach(k, 2);
    }
    if SeededChart()[k].code == "2000" {
      OneOfEach(k, 6);
    }
  }

  /** One account per code and per id, 1100 an asset and 2000 a liability. */
  lemma SeededChartIsOk(chart: seq<Account>)
    requires Seeded(chart)
    ensures ChartOk(chart)
  {
    forall i, k | 0 <= i < k < |chart|
      ensures chart[i].id != chart[k].id && chart[i].code != chart[k].code
    {
      SeedInOrder(i, k);
    }
    forall a | a in chart
      ensures a.code == RECEIVABLE ==> a.kind == Asset
      ensures a.code == PAYABLE ==> a.kind == Liability
    {
      var k :| 0 <= k < |chart| && chart[k] == a;
      SeedKindsOk(k);
    }
  }

  lemma SeedAt(i: nat)
    requires i < 26
    ensures |SeededChart()| == 26
    ensures i == 0 ==> SeededChart()[i] == Account(1, CASH, Asset)
    ensures i == 1 ==> SeededChart()[i] == Account(2, BANK, Asset)
    ensures i == 2 ==> SeededChart()[i] == Account(3, RECEIVABLE, Asset)
    ensures i == 3 ==> SeededChart()[i] == Account(4, INVENTORY, Asset)
    ensures i == 6 ==> SeededChart()[i] == Account(7, PAYABLE, Liability)
    ensures i == 9 ==> SeededChart()[i] == Account(10, VAT, Liability)
    ensures i == 10 ==> SeededChart()[i] == Account(11, OTHER_TAX, Liability)
    ensures i == 13 ==> SeededChart()[i] == Account(14, REVENUE, Revenue)
    ensures i == 16 ==> SeededChart()[i] == Account(17, COGS, Expense)
  {
  }

  lemma SeedFinds(chart: seq<Account>, i: nat)
    requires Seeded(chart) && i < |SeededChart()|
    ensures i < |chart| && chart[i] == SeededChart()[i] && AccountByCode(chart, chart[i].code) == Some(chart[i])
  {
    SeedHas(chart, i, SeededChart()[i]);
  }

  /** The accounts the postings fall on, and their types. */
  lemma SeedKinds(chart: seq<Account>)
    requires Seeded(chart)
    ensures AccountByCode(chart, CASH) == Some(Account(1, CASH, Asset))
    ensures AccountByCode(chart, BANK) == Some(Account(2, BANK, Asset))
    ensures AccountByCode(chart, RECEIVABLE) == Some(Account(3, RECEIVABLE, Asset))
    ensures AccountByCode(chart, INVENTORY) == Some(Account(4, INVENTORY, Asset))
    ensures AccountByCode(chart, PAYABLE) == Some(Account(7, PAYABLE, Liability))
    ensures AccountByCode(chart, VAT) == Some(Account(10, VAT, Liability))
    ensures AccountByCode(chart, OTHER_TAX) == Some(Account(11, OTHER_TAX, Liability))
    ensures AccountByCode(chart, REVENUE) == Some(Account(14, REVENUE, Revenue))
    ensures AccountByCode(chart, COGS) == Some(Account(17, COGS, Expense))
  {
    SeedAt(0);
    SeedFinds(chart, 0);
    SeedAt(1);
    SeedFinds(chart, 1);
    SeedAt(2);
    SeedFinds(chart, 2);
    SeedAt(3);
    SeedFinds(chart, 3);
    SeedAt(6);
    SeedFinds(chart, 6);
    SeedAt(9);
    SeedFinds(chart, 9);
    SeedAt(10);
    SeedFinds(chart, 10);
    SeedAt(13);
    SeedFinds(chart, 13);
    SeedAt(16);
    SeedFinds(chart, 16);
  }

  /** Every category has an expense account of its own or the miscellaneous one. */
  lemma CategoryHasAccount(chart: seq<Account>, category: string)
    requires Seeded(chart)
    ensures var a := AccountByCode(chart, ExpenseCode(category)); a.Some? && a.value.kind == Expense
  {
    if category == "rent" {
      SeedHas(chart, 17, Account(18, "5100", Expense));
    } else if category == "utilities" {
      SeedHas(chart, 18, Account(19, "5200", Expense));
    } else if category == "salaries" {
      SeedHas(chart, 19, Account(20, "5300", Expense));
    } else if category == "supplies" {
      SeedHas(chart, 20, Account(21, "5400", Expense));
    } else if category == "transport" {
      SeedHas(chart, 21, Account(22, "5500", Expense));
    } else if category == "marketing" {
      SeedHas(chart, 22, Account(23, "5600", Expense));
    } else if category == "bank_charges" {
      SeedHas(chart, 23, Account(24, "5700", Expense));
    } else if category == "phone_internet" {
      SeedHas(chart, 24, Account(25, "5800", Expense));
    } else {
      SeedHas(chart, 25, Account(26, "5900", Expense));
    }
  }

  /** On the seeded chart a receivable, a payable and an expense of any category are refused only for their amount or a missing store. */
  lemma SeedRefusesNoDocument(s: State, number: string, amount: real, store: Option<nat>, category: string, now: int)
    requires Seeded(s.chart)
    ensures CreateReceivable(s, number, amount, store, now).Ok? <==> amount > 0.0 && store.Some?
    ensures CreatePayable(s, number, amount, store, category, now).Ok? <==> amount > 0.0 && store.Some?
    ensures CreateExpense(s, category, number, amount, store, now).Ok? <==> amount > 0.0 && store.Some?
  {
    SeedKinds(s.chart);
    CategoryHasAccount(s.chart, category);
    ReceivableRefusedIff(s, number, amount, store, now);
    PayableRefusedIff(s, number, amount, store, category, now);
    ExpenseRefusedIff(s, category, number, amount, store, now);
  }

  /** And a sale whose taxes are booked to accounts of the chart, or to none, always posts, each line on the account it was planned for. */
  lemma SeedRefusesNoSale(s: State, sale: Sale, clock: nat -> int)
    requires Seeded(s.chart)
    requires forall t :: t in sale.taxes ==> t.code.None? || t.code.value == "" || InChart(s.chart, t.code.value)
    ensures PostSale(s, sale, clock).Ok? && !Fired(s.chart, sale, clock)
  {
    SeedKinds(s.chart);
    forall code | Fallback.Uses(sale, code)
      ensures InChart(s.chart, code)
    {
      CodeIsSeeded(s, sale, code);
    }
    PostsIff(s, sale, clock);
    FallbackFiresIff(s, sale, clock);
  }

  lemma CodeIsSeeded(s: State, sale: Sale, code: string)
    requires Seeded(s.chart) && Fallback.Uses(sale, code)
    requires forall t :: t in sale.taxes ==> t.code.None? || t.code.value == "" || InChart(s.chart, t.code.value)
    ensures InChart(s.chart, code)
  {
    SeedKinds(s.chart);
    if sale.taxes != [] && TaxedTo(sale.taxes, code) {
      var t :| t in sale.taxes && TaxAccountIs(t.code, code);
    }
  }
}
