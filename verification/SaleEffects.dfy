/** What a posted sale books, read off the sale itself: its money, its goods, and the row of an unpaid one. */
module SaleEffects {
  import opened Sums
  import opened Ledger
  import opened Posting
  import opened Sales
  import opened SalePosting
  import opened Fallback
  import opened Effects

  /** The journal a posted sale wrote. */
  function Posted(s: State, sale: Sale, clock: nat -> int): Journal
    requires PostSale(s, sale, clock).Ok?
  {
    var js := PostSale(s, sale, clock).value.journals;
    js[|js| - 1]
  }

  lemma {:induction false} GoodsAppend(a: seq<Item>, b: seq<Item>)
    ensures GoodsCost(a + b) == GoodsCost(a) + GoodsCost(b)
  {
    if a == [] {
      assert a + b == b;
    } else {
      assert (a + b)[1..] == a[1..] + b;
      GoodsAppend(a[1..], b);
    }
  }

  lemma OneItem(c: real, q: real)
    ensures GoodsCost([Item(c, q)]) == c * q
  {
    assert [Item(c, q)][1..] == [];
  }

  lemma GoodsCodes()
    ensures COGS == "5000" && INVENTORY == "1200"
    ensures forall sale :: MoneyAccount(sale) != COGS && MoneyAccount(sale) != INVENTORY
    ensures REVENUE != COGS && REVENUE != INVENTORY && VAT != COGS && VAT != INVENTORY
  {
    CodesDiffer();
    assert "1010"[1] == '0' && "1100"[1] == '1' && "1000"[1] == '0' && INVENTORY[1] == '2' && VAT[0] == '2' && COGS[0] == '5' && REVENUE[0] == '4';
  }

  lemma NoTaxOn(sale: Sale, code: string)
    requires code != VAT && !TaxedTo(sale.taxes, code)
    ensures TaxCredit(sale, code) == 0
  {
    if sale.taxes != [] {
      var g := GroupInto(Round, [], sale.taxes);
      OneCreditPerAccount(Round, [], sale.taxes, code);
      forall b | b in g
        ensures BucketOn(code)(b) == 0
      {
        assert b.code == code ==> CodeIn(g, code);
      }
      SumZero(g, BucketOn(code));
    }
  }

  lemma Share(s: State, sale: Sale, clock: nat -> int, a: Account)
    requires ChartOk(s.chart) && a in s.chart && PostSale(s, sale, clock).Ok?
    ensures JOn(a.id)(Posted(s, sale, clock)) == SaleShare(s.chart, sale, a.code)
  {
    SaleBooks(s, sale, clock, a);
  }

  lemma GoodsShare(chart: seq<Account>, sale: Sale, code: string)
    requires (code == "5000" || code == "1200") && !TaxedTo(sale.taxes, code)
    ensures var cost := if GoodsCost(sale.items) <= 0.0 then 0 else Round(GoodsCost(sale.items));
            SaleShare(chart, sale, code) == if code == "5000" then cost else -cost
  {
    GoodsCodes();
    CodesDiffer();
    CodesDifferForGoods();
    NoTaxOn(sale, code);
  }

  /** Unit cost times quantity over all items goes from 1200 to 5000, rounded once; nothing does when it comes to nothing. */
  lemma CostBooks(s: State, sale: Sale, clock: nat -> int, a: Account)
    requires ChartOk(s.chart) && a in s.chart && (a.code == "5000" || a.code == "1200")
    requires PostSale(s, sale, clock).Ok? && !TaxedTo(sale.taxes, a.code)
    ensures var cost := if GoodsCost(sale.items) <= 0.0 then 0 else Round(GoodsCost(sale.items));
            JOn(a.id)(Posted(s, sale, clock)) == if a.code == "5000" then cost else -cost
  {
    GoodsShare(s.chart, sale, a.code);
    Share(s, sale, clock, a);
  }

  lemma PricedBooks(s: State, sale: Sale, clock: nat -> int, x: real, a: Account)
    requires ChartOk(s.chart) && a in s.chart && (a.code == "5000" || a.code == "1200")
    requires PostSale(s, sale, clock).Ok? && !TaxedTo(sale.taxes, a.code)
    requires GoodsCost(sale.items) == x && x > 0.0
    ensures JOn(a.id)(Posted(s, sale, clock)) == if a.code == "5000" then Round(x) else -Round(x)
  {
    CostBooks(s, sale, clock, a);
  }

  /** One item of unit cost `c`, `q` of it: 5000 is debited and 1200 credited by `c` times `q`. */
  lemma OneItemBooks(s: State, sale: Sale, clock: nat -> int, c: real, q: real, x: real, a: Account)
    requires ChartOk(s.chart) && a in s.chart && (a.code == "5000" || a.code == "1200")
    requires PostSale(s, sale, clock).Ok? && !TaxedTo(sale.taxes, a.code)
    requires sale.items == [Item(c, q)] && x == c * q && x > 0.0
    ensures JOn(a.id)(Posted(s, sale, clock)) == if a.code == "5000" then Round(x) else -Round(x)
  {
    assert GoodsCost(sale.items) == x by {
      OneItem(c, q);
    }
    PricedBooks(s, sale, clock, x, a);
  }

  /** Items that cost nothing book nothing. */
  lemma FreeGoodsBookNothing(s: State, sale: Sale, clock: nat -> int, a: Account)
    requires ChartOk(s.chart) && a in s.chart && (a.code == "5000" || a.code == "1200")
    requires PostSale(s, sale, clock).Ok? && !TaxedTo(sale.taxes, a.code)
    requires forall i :: i in sale.items ==> i.cost == 0.0 || i.qty == 0.0
    ensures JOn(a.id)(Posted(s, sale, clock)) == 0
  {
    FreeGoods(sale.items);
    CostBooks(s, sale, clock, a);
  }

  lemma {:induction false} FreeGoods(items: seq<Item>)
    requires forall i :: i in items ==> i.cost == 0.0 || i.qty == 0.0
    ensures GoodsCost(items) == 0.0
  {
    if items != [] {
      assert items[0] in items;
      assert items[0].cost * items[0].qty == 0.0;
      FreeGoods(items[1..]);
    }
  }

  lemma SplitCost(before: seq<Item>, c: real, q1: real, q2: real, after: seq<Item>)
    ensures GoodsCost(before + [Item(c, q1 + q2)] + after) == GoodsCost(before + [Item(c, q1), Item(c, q2)] + after)
  {
    var two := [Item(c, q1), Item(c, q2)];
    assert two == [Item(c, q1)] + [Item(c, q2)];
    GoodsAppend(before + [Item(c, q1 + q2)], after);
    GoodsAppend(before, [Item(c, q1 + q2)]);
    GoodsAppend(before + two, after);
    GoodsAppend(before, two);
    GoodsAppend([Item(c, q1)], [Item(c, q2)]);
    OneItem(c, q1 + q2);
    OneItem(c, q1);
    OneItem(c, q2);
    assert c * (q1 + q2) == c * q1 + c * q2;
  }

  ghost predicate SameButItems(sale: Sale, sale': Sale) {
    sale' == sale.(items := sale'.items) && GoodsCost(sale'.items) == GoodsCost(sale.items)
  }

  lemma SameOn(sale: Sale, sale': Sale, code: string)
    requires SameButItems(sale, sale')
    ensures SaleOn(sale, code) == SaleOn(sale', code) && (Uses(sale, code) <==> Uses(sale', code))
  {
  }

  lemma SameShare(chart: seq<Account>, sale: Sale, sale': Sale, code: string)
    requires SameButItems(sale, sale')
    ensures SaleShare(chart, sale, code) == SaleShare(chart, sale', code)
  {
    SameOn(sale, sale', code);
    SameOn(sale, sale', BANK);
    SameOn(sale, sale', RECEIVABLE);
    SameOn(sale, sale', CASH);
  }

  /** Only the total cost of the items matters to what a sale books. */
  lemma SameCostSameBooks(s: State, sale: Sale, sale': Sale, clock: nat -> int, a: Account)
    requires ChartOk(s.chart) && a in s.chart
    requires SameButItems(sale, sale')
    requires PostSale(s, sale, clock).Ok? && PostSale(s, sale', clock).Ok?
    ensures JOn(a.id)(Posted(s, sale, clock)) == JOn(a.id)(Posted(s, sale', clock))
  {
    Share(s, sale, clock, a);
    Share(s, sale', clock, a);
    SameShare(s.chart, sale, sale', a.code);
  }

  /** Ringing up `q1 + q2` of an item at once or as `q1` and `q2` books the same on every account. */
  lemma SplittingAnItem(s: State, sale: Sale, clock: nat -> int, a: Account, before: seq<Item>, c: real, q1: real, q2: real, after: seq<Item>)
    requires ChartOk(s.chart) && a in s.chart && sale.items == before + [Item(c, q1 + q2)] + after
    requires PostSale(s, sale, clock).Ok? && PostSale(s, sale.(items := before + [Item(c, q1), Item(c, q2)] + after), clock).Ok?
    ensures JOn(a.id)(Posted(s, sale, clock))
         == JOn(a.id)(Posted(s, sale.(items := before + [Item(c, q1), Item(c, q2)] + after), clock))
  {
    SplitCost(before, c, q1, q2, after);
    SameCostSameBooks(s, sale, sale.(items := before + [Item(c, q1), Item(c, q2)] + after), clock, a);
  }

  // ---- the money ----

  predicate IsMoney(code: string) {
    code == "1000" || code == "1010" || code == "1100"
  }

  lemma MoneyCodes(code: string)
    requires IsMoney(code)
    ensures code == CASH || code == BANK || code == RECEIVABLE
    ensures code != REVENUE && code != VAT && code != COGS && code != INVENTORY
  {
    CodesDiffer();
    assert SaleCode(REVENUE) && SaleCode(VAT) && SaleCode(COGS) && SaleCode(INVENTORY);
  }

  lemma MoneyOnly(sale: Sale, code: string)
    requires IsMoney(code) && CashFreeTaxes(sale.taxes)
    ensures SaleOn(sale, code) == if code == MoneyAccount(sale) then Round(sale.total) else 0
  {
    MoneyCodes(code);
    NoTaxOn(sale, code);
  }

  lemma MoneyShare(chart: seq<Account>, sale: Sale, code: string)
    requires IsMoney(code) && CashFreeTaxes(sale.taxes)
    ensures SaleShare(chart, sale, code) == if code == MoneyAccount(sale) then Round(sale.total) else 0
  {
    MoneyOnly(sale, code);
    MoneyOnly(sale, "1010");
    MoneyOnly(sale, "1100");
    CodesDiffer();
  }

  /**
   With no tax on them, of 1000, 1010 and 1100 one is debited by the sale's total
   and the others by nothing: 1100 while it is unpaid, 1010 when it was paid by
   card or transfer, 1000 otherwise.
   */
  lemma MoneyBooks(s: State, sale: Sale, clock: nat -> int, a: Account)
    requires ChartOk(s.chart) && a in s.chart && IsMoney(a.code)
    requires PostSale(s, sale, clock).Ok? && CashFreeTaxes(sale.taxes)
    ensures var byBank := sale.payBy == "card" || sale.payBy == "transfer";
            var money := if !sale.settled then "1100" else if byBank then "1010" else "1000";
            JOn(a.id)(Posted(s, sale, clock)) == if a.code == money then Round(sale.total) else 0
  {
    MoneyShare(s.chart, sale, a.code);
    Share(s, sale, clock, a);
  }

  // ---- the row ----

  /** An unpaid sale adds one row, on which its whole total is owed in its store; a settled one adds none. */
  lemma SaleRowAdded(s: State, sale: Sale, clock: nat -> int)
    requires PostSale(s, sale, clock).Ok? && !TaxedTo(sale.taxes, RECEIVABLE)
    ensures var s', n := PostSale(s, sale, clock).value, |Plan(Round, sale)|;
            if sale.settled || AccountByCode(s.chart, RECEIVABLE).None? then s'.ar == s.ar
            else
              && |s'.ar| == |s.ar| + 1 && s'.ar[..|s.ar|] == s.ar
              && var r := s'.ar[|s.ar|];
                 && r.number == sale.number && r.store == sale.store && r.createdAt == clock(n + 1)
                 && r.amount == r.balance == Round(sale.total) && r.paid == 0 && r.status == Pending
  {
    RoundIsNearest();
    PlanIsShaped(Round, sale);
    if !sale.settled {
      SaleOpensRow(s.chart, sale, Plan(Round, sale), clock);
    }
  }
}
