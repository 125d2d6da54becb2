/**
 The fall-back to cash of _post_sale_journal: when it fires, when a sale whose
 bank or receivable account is missing posts at all, and what it then books.
 */
module Fallback {
  import opened Results
  import opened Sums
  import opened Ledger
  import opened Posting
  import opened Sales
  import opened SalePosting

  /** The codes a sale needs, read off the sale itself. */
  predicate Uses(sale: Sale, code: string) {
    || code == MoneyAccount(sale)
    || code == REVENUE
    || (TaxesOf(sale) > 0.0 && if sale.taxes != [] then TaxedTo(sale.taxes, code) else code == VAT)
    || (GoodsCost(sale.items) > 0.0 && (code == COGS || code == INVENTORY))
  }

  predicate InChart(chart: seq<Account>, code: string) {
    exists a :: a in chart && a.code == code
  }

  /** The branch: a missing 1010 or 1100, and cash among the accounts fetched for the sale. */
  predicate FallsBack(chart: seq<Account>, sale: Sale, code: string) {
    (code == BANK || code == RECEIVABLE) && !InChart(chart, code) && Uses(sale, CASH) && InChart(chart, CASH)
  }

  lemma WantedSplits(a: seq<Planned>, b: seq<Planned>, code: string)
    ensures Wanted(a + b, code) <==> Wanted(a, code) || Wanted(b, code)
  {
    assert forall p :: p in a + b <==> p in a || p in b;
  }

  lemma TaxesWanted(sale: Sale, code: string)
    ensures Wanted(TaxEntries(Round, sale), code) <==>
      TaxTotal(Round, sale) > 0.0 && if sale.taxes != [] then TaxedTo(sale.taxes, code) else code == VAT
  {
    if TaxTotal(Round, sale) > 0.0 && sale.taxes != [] {
      var g := GroupInto(Round, [], sale.taxes);
      OneCreditPerAccount(Round, [], sale.taxes, code);
      var es := TaxEntries(Round, sale);
      if CodeIn(g, code) {
        var i :| 0 <= i < |g| && g[i].code == code;
        assert es[i] in es;
      }
      if p :| p in es && p.code == code {
        var i :| 0 <= i < |es| && es[i] == p;
        assert g[i] in g;
      }
    }
  }

  lemma PlanUses(sale: Sale, code: string)
    ensures Wanted(Plan(Round, sale), code) <==> Uses(sale, code)
  {
    var m, t, c := [MoneyEntry(sale), RevenueEntry(sale, TaxTotal(Round, sale))], TaxEntries(Round, sale), CostEntries(sale);
    WantedSplits(m + t, c, code);
    WantedSplits(m, t, code);
    TaxesWanted(sale, code);
    CostIsGoods(sale.items);
    DebitIsMoney(sale);
    TaxTotalIs(sale);
    assert m[0] in m && m[1] in m;
    if c != [] {
      assert c[0] in c && c[1] in c;
    }
  }

  lemma ResolvesIff(chart: seq<Account>, sale: Sale, code: string)
    ensures var r := Resolve(chart, Plan(Round, sale), code);
            && (r.Some? <==> InChart(chart, code) || FallsBack(chart, sale, code))
            && (r.Some? ==> r.value.code == if FallsBack(chart, sale, code) then CASH else code)
  {
    PlanUses(sale, CASH);
  }

  /** A sale posts exactly when every account it needs is in the chart or falls back. */
  lemma PostsIff(s: State, sale: Sale, clock: nat -> int)
    ensures PostSale(s, sale, clock).Ok? <==> forall code :: Uses(sale, code) ==> InChart(s.chart, code) || FallsBack(s.chart, sale, code)
  {
    var plan := Plan(Round, sale);
    if PostSale(s, sale, clock).Ok? {
      forall code | Uses(sale, code)
        ensures InChart(s.chart, code) || FallsBack(s.chart, sale, code)
      {
        PlanUses(sale, code);
        var p :| p in plan && p.code == code;
        ResolvesIff(s.chart, sale, code);
      }
    }
    if forall code :: Uses(sale, code) ==> InChart(s.chart, code) || FallsBack(s.chart, sale, code) {
      forall p | p in plan
        ensures Resolve(s.chart, plan, p.code).Some?
      {
        PlanUses(sale, p.code);
        ResolvesIff(s.chart, sale, p.code);
      }
    }
  }

  /** Some line of the posted sale carries another code than planned. */
  predicate Fired(chart: seq<Account>, sale: Sale, clock: nat -> int)
    requires Resolvable(chart, Plan(Round, sale))
  {
    var plan := Plan(Round, sale);
    exists k :: 0 <= k < |plan| && SaleLines(chart, plan, clock)[k].code != plan[k].code
  }

  /** In a sale that posts, each line moves to cash exactly when its account falls back. */
  lemma LinesFallBack(s: State, sale: Sale, clock: nat -> int, k: nat)
    requires PostSale(s, sale, clock).Ok? && k < |Plan(Round, sale)|
    ensures var plan := Plan(Round, sale);
            SaleLines(s.chart, plan, clock)[k].code == if FallsBack(s.chart, sale, plan[k].code) then CASH else plan[k].code
  {
    ResolvesIff(s.chart, sale, Plan(Round, sale)[k].code);
  }

  lemma MissingFires(s: State, sale: Sale, clock: nat -> int, code: string)
    requires PostSale(s, sale, clock).Ok? && (code == BANK || code == RECEIVABLE)
    ensures Uses(sale, code) && !InChart(s.chart, code) ==> Fired(s.chart, sale, clock)
  {
    if Uses(sale, code) && !InChart(s.chart, code) {
      var plan := Plan(Round, sale);
      assert Wanted(plan, code) by {
        PlanUses(sale, code);
      }
      var p :| p in plan && p.code == code;
      var k :| 0 <= k < |plan| && plan[k] == p;
      assert SaleLines(s.chart, plan, clock)[k].code == CASH by {
        LinesFallBack(s, sale, clock, k);
        MissingFallsBack(s, sale, clock, code);
      }
      assert CASH != code by {
        CodesDiffer();
      }
    }
  }

  /** In a sale that posts, a needed account that is not in the chart is one that falls back. */
  lemma MissingFallsBack(s: State, sale: Sale, clock: nat -> int, code: string)
    requires PostSale(s, sale, clock).Ok? && Uses(sale, code) && !InChart(s.chart, code)
    ensures FallsBack(s.chart, sale, code)
  {
    PostsIff(s, sale, clock);
  }

  lemma EveryEntryIsUsed(sale: Sale, k: nat)
    requires k < |Plan(Round, sale)|
    ensures Uses(sale, Plan(Round, sale)[k].code)
  {
    var plan := Plan(Round, sale);
    assert plan[k] in plan;
    PlanUses(sale, plan[k].code);
  }

  lemma FiresOnlyIfMissing(s: State, sale: Sale, clock: nat -> int, k: nat)
    requires PostSale(s, sale, clock).Ok? && k < |Plan(Round, sale)|
    requires SaleLines(s.chart, Plan(Round, sale), clock)[k].code != Plan(Round, sale)[k].code
    ensures (Uses(sale, BANK) && !InChart(s.chart, BANK)) || (Uses(sale, RECEIVABLE) && !InChart(s.chart, RECEIVABLE))
  {
    LinesFallBack(s, sale, clock, k);
    EveryEntryIsUsed(sale, k);
  }

  /** And some line does exactly when a needed 1010 or 1100 is missing. */
  lemma FallbackFiresIff(s: State, sale: Sale, clock: nat -> int)
    requires PostSale(s, sale, clock).Ok?
    ensures Fired(s.chart, sale, clock) <==>
      (Uses(sale, BANK) && !InChart(s.chart, BANK)) || (Uses(sale, RECEIVABLE) && !InChart(s.chart, RECEIVABLE))
  {
    if Fired(s.chart, sale, clock) {
      var k :| 0 <= k < |Plan(Round, sale)| && SaleLines(s.chart, Plan(Round, sale), clock)[k].code != Plan(Round, sale)[k].code;
      FiresOnlyIfMissing(s, sale, clock, k);
    }
    MissingFires(s, sale, clock, BANK);
    MissingFires(s, sale, clock, RECEIVABLE);
  }

  lemma CashOnlyByTax(sale: Sale)
    requires MoneyAccount(sale) != CASH
    ensures Uses(sale, CASH) <==> TaxesOf(sale) > 0.0 && TaxedTo(sale.taxes, CASH)
    ensures MoneyAccount(sale) == BANK || MoneyAccount(sale) == RECEIVABLE
  {
    CodesDiffer();
    assert SaleCode(REVENUE) && SaleCode(VAT) && SaleCode(COGS) && SaleCode(INVENTORY);
  }

  /**
   The documented promise, that a sale whose bank or receivable account is
   missing goes to cash: with everything else in the chart it is kept exactly
   when the sale carries a positive tax with a line booked to 1000, and otherwise
   the sale is refused.
   */
  lemma PromiseKeptIff(s: State, sale: Sale, clock: nat -> int)
    requires MoneyAccount(sale) != CASH && !InChart(s.chart, MoneyAccount(sale)) && InChart(s.chart, CASH)
    requires forall code :: Uses(sale, code) && code != MoneyAccount(sale) ==> InChart(s.chart, code)
    ensures PostSale(s, sale, clock).Ok? <==> TaxesOf(sale) > 0.0 && TaxedTo(sale.taxes, CASH)
    ensures PostSale(s, sale, clock).Err? ==> PostSale(s, sale, clock) == Err(AccountMissing)
  {
    PostsIff(s, sale, clock);
    CashOnlyByTax(sale);
    assert Uses(sale, MoneyAccount(sale));
  }

  // ---- a transfer on a chart without a bank account ----

  function NoBank(): State {
    Empty([Account(1, CASH, Asset), Account(2, REVENUE, Revenue)], [], 9)
  }

  function Transfer(taxes: seq<TaxLine>): Sale {
    Sale(1, "S-1", 100.0, 0.0, taxes, [], "transfer", Some(1), true)
  }

  lemma NoBankHas(code: string)
    ensures InChart(NoBank().chart, code) <==> code == CASH || code == REVENUE
  {
    assert NoBank().chart[0] in NoBank().chart && NoBank().chart[1] in NoBank().chart;
  }

  /** Cash is there, and the transfer is refused all the same. */
  lemma TransferIsRefused(clock: nat -> int)
    ensures PostSale(NoBank(), Transfer([]), clock) == Err(AccountMissing)
  {
    CodesDiffer();
    forall code: string
      ensures InChart(NoBank().chart, code) <==> code == CASH || code == REVENUE
    {
      NoBankHas(code);
    }
    PromiseKeptIff(NoBank(), Transfer([]), clock);
  }

  function CashTax(): seq<TaxLine> {
    [TaxLine(Some(CASH), "Levy", 10.0)]
  }

  /** The same transfer with a tax booked to 1000 posts, and its money goes to cash. */
  lemma TaxedTransferFallsBack(clock: nat -> int)
    ensures var plan := Plan(Round, Transfer(CashTax()));
            && PostSale(NoBank(), Transfer(CashTax()), clock).Ok?
            && plan[0].code == BANK && SaleLines(NoBank().chart, plan, clock)[0].code == CASH
  {
    var sale := Transfer(CashTax());
    CodesDiffer();
    forall code: string
      ensures InChart(NoBank().chart, code) <==> code == CASH || code == REVENUE
    {
      NoBankHas(code);
    }
    assert TaxCode(CashTax()[0]) == CASH;
    assert CashTax()[1..] == [];
    assert RSum(CashTax(), TaxAmount()) == 10.0 + RSum(CashTax()[1..], TaxAmount()) == 10.0;
    assert TaxesOf(sale) > 0.0;
    assert CashTax()[0] in sale.taxes;
    forall code | TaxedTo(sale.taxes, code)
      ensures code == CASH
    {
    }
    PromiseKeptIff(NoBank(), sale, clock);
    LinesFallBack(NoBank(), sale, clock, 0);
  }
}
