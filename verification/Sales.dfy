/**
 The journal of a sale: plan_sale_journal, which decides the entries, and
 _post_sale_journal, which resolves their accounts, posts them and opens the
 receivable of an unpaid sale.
 */
module Sales {
  import opened Results
  import opened Sums
  import opened Ledger
  import opened Posting
  import opened SubLedger

  datatype TaxLine = TaxLine(code: Option<string>, name: string, amount: real)

  datatype Item = Item(cost: real, qty: real)

  datatype Sale = Sale(
    id: nat, number: string, total: real, taxAmount: real, taxes: seq<TaxLine>, items: seq<Item>,
    payBy: string, store: Option<nat>, settled: bool)

  datatype Planned = Planned(code: string, debit: real, credit: real, desc: string)

  datatype Bucket = Bucket(code: string, amount: int, names: seq<string>)

  /** Any rounding to the nearest kobo, whichever way it breaks ties. */
  ghost predicate Nearest(round: real -> int) {
    forall x :: -0.5 <= round(x) as real - x <= 0.5
  }

  lemma RoundIsNearest()
    ensures Nearest(Round)
  {
  }

  function TaxCode(t: TaxLine): string {
    match t.code case None => OTHER_TAX case Some(c) => if c == "" then OTHER_TAX else c
  }

  function TaxAmount(): TaxLine -> real {
    (t: TaxLine) => t.amount
  }

  function BucketAmount(): Bucket -> int {
    (b: Bucket) => b.amount
  }

  function FindBucket(g: seq<Bucket>, code: string): (i: Option<nat>)
    ensures i.Some? ==> i.value < |g| && g[i.value].code == code
    ensures i.None? ==> forall b :: b in g ==> b.code != code
  {
    if g == [] then None
    else if g[0].code == code then Some(0)
    else match FindBucket(g[1..], code)
         case None => None
         case Some(k) => Some(k + 1)
  }

  function AddTax(round: real -> int, g: seq<Bucket>, t: TaxLine): seq<Bucket> {
    match FindBucket(g, TaxCode(t))
    case None => g + [Bucket(TaxCode(t), round(t.amount), [t.name])]
    case Some(i) =>
      g[i := Bucket(g[i].code, round(g[i].amount as real + t.amount),
                    if t.name in g[i].names then g[i].names else g[i].names + [t.name])]
  }

  function GroupInto(round: real -> int, g: seq<Bucket>, ts: seq<TaxLine>): seq<Bucket>
    decreases |ts|
  {
    if ts == [] then g else GroupInto(round, AddTax(round, g, ts[0]), ts[1..])
  }

  function Join(names: seq<string>): string {
    if names == [] then ""
    else if |names| == 1 then names[0]
    else names[0] + " + " + Join(names[1..])
  }

  function BucketEntry(number: string): Bucket -> Planned {
    (b: Bucket) => Planned(b.code, 0.0, b.amount as real, Join(b.names) + " collected: " + number)
  }

  function ItemCost(): Item -> real {
    (i: Item) => i.cost * i.qty
  }

  function TaxTotal(round: real -> int, sale: Sale): real {
    if sale.taxes != [] then round(RSum(sale.taxes, TaxAmount())) as real else sale.taxAmount
  }

  function DebitCode(sale: Sale): string {
    if !sale.settled then RECEIVABLE
    else if sale.payBy == "card" || sale.payBy == "transfer" then BANK
    else CASH
  }

  function DebitLabel(sale: Sale): string {
    if !sale.settled then "Receivable"
    else if sale.payBy == "card" || sale.payBy == "transfer" then "Bank transfer"
    else "Cash"
  }

  function MoneyEntry(sale: Sale): Planned {
    Planned(DebitCode(sale), sale.total, 0.0, DebitLabel(sale) + " received: " + sale.number)
  }

  function RevenueEntry(sale: Sale, tax: real): Planned {
    Planned(REVENUE, 0.0, sale.total - tax, "Revenue: " + sale.number)
  }

  function VatEntry(sale: Sale): Planned {
    Planned(VAT, 0.0, sale.taxAmount, "VAT collected: " + sale.number)
  }

  function TaxEntries(round: real -> int, sale: Sale): seq<Planned> {
    if TaxTotal(round, sale) <= 0.0 then []
    else if sale.taxes != [] then Map(GroupInto(round, [], sale.taxes), BucketEntry(sale.number))
    else [VatEntry(sale)]
  }

  function CostEntries(sale: Sale): seq<Planned> {
    var cost := RSum(sale.items, ItemCost());
    if cost <= 0.0 then []
    else [ Planned(COGS, cost, 0.0, "COGS: " + sale.number),
           Planned(INVENTORY, 0.0, cost, "Inventory reduction: " + sale.number) ]
  }

  function Plan(round: real -> int, sale: Sale): seq<Planned> {
    [MoneyEntry(sale), RevenueEntry(sale, TaxTotal(round, sale))] + TaxEntries(round, sale) + CostEntries(sale)
  }

  /** The `grouped` dict of plan_sale_journal, built line by line. */
  method GroupTaxes(round: real -> int, taxes: seq<TaxLine>) returns (grouped: seq<Bucket>)
    ensures grouped == GroupInto(round, [], taxes)
  {
    grouped := [];
    var i := 0;
    while i < |taxes|
      invariant i <= |taxes|
      invariant GroupInto(round, grouped, taxes[i..]) == GroupInto(round, [], taxes)
    {
      grouped := AddTax(round, grouped, taxes[i]);
      i := i + 1;
    }
  }

  method PlanSaleJournal(round: real -> int, sale: Sale) returns (entries: seq<Planned>)
    ensures entries == Plan(round, sale)
  {
    var tax := sale.taxAmount;
    if sale.taxes != [] {
      tax := round(RSum(sale.taxes, TaxAmount())) as real;
    }
    entries := [MoneyEntry(sale)];
    entries := entries + [RevenueEntry(sale, tax)];
    if tax > 0.0 {
      if sale.taxes != [] {
        var grouped := GroupTaxes(round, sale.taxes);
        entries := entries + Map(grouped, BucketEntry(sale.number));
      } else {
        entries := entries + [VatEntry(sale)];
      }
    }
    entries := entries + CostEntries(sale);
  }

  // ---- what a sale amounts to, read off the sale ----

  /** Unit cost times quantity, added up. */
  function GoodsCost(items: seq<Item>): real {
    if items == [] then 0.0 else items[0].cost * items[0].qty + GoodsCost(items[1..])
  }

  lemma {:induction false} CostIsGoods(items: seq<Item>)
    ensures RSum(items, ItemCost()) == GoodsCost(items)
  {
    if items != [] {
      CostIsGoods(items[1..]);
    }
  }

  /** Where the money of a sale is owed or paid in: 1100 until it is settled, 1010 for card and transfer, else 1000. */
  function MoneyAccount(sale: Sale): string {
    if !sale.settled then "1100" else if sale.payBy in ["card", "transfer"] then "1010" else "1000"
  }

  lemma DebitIsMoney(sale: Sale)
    ensures DebitCode(sale) == MoneyAccount(sale)
  {
  }

  /** The taxes of a sale: the breakdown added up and rounded to the kobo, or the single figure when there is none. */
  function TaxesOf(sale: Sale): real {
    if |sale.taxes| == 0 then sale.taxAmount else Round(RSum(sale.taxes, TaxAmount())) as real
  }

  lemma TaxTotalIs(sale: Sale)
    ensures TaxTotal(Round, sale) == TaxesOf(sale)
  {
  }

  // ---- grouping the taxes ----

  ghost predicate DistinctCodes(g: seq<Bucket>) {
    forall i, j :: 0 <= i < j < |g| ==> g[i].code != g[j].code
  }

  predicate CodeIn(g: seq<Bucket>, code: string) {
    exists b :: b in g && b.code == code
  }

  predicate TaxedTo(ts: seq<TaxLine>, code: string) {
    exists t :: t in ts && TaxAccountIs(t.code, code)
  }

  lemma AddTaxCodes(round: real -> int, g: seq<Bucket>, t: TaxLine, code: string)
    requires DistinctCodes(g)
    ensures DistinctCodes(AddTax(round, g, t))
    ensures CodeIn(AddTax(round, g, t), code) <==> CodeIn(g, code) || TaxCode(t) == code
  {
    var g' := AddTax(round, g, t);
    match FindBucket(g, TaxCode(t))
    case None =>
      assert g'[|g|].code == TaxCode(t);
      assert forall i :: 0 <= i < |g| ==> g'[i] == g[i] && g[i] in g;
    case Some(i) =>
      assert forall k :: 0 <= k < |g| ==> g'[k].code == g[k].code;
      if CodeIn(g, code) {
        var k :| 0 <= k < |g| && g[k].code == code;
        assert g'[k] in g';
      }
      assert g'[i] in g';
  }

  /** One bucket per distinct account: never two for one account, never one missing or invented. */
  lemma {:induction false} OneCreditPerAccount(round: real -> int, g: seq<Bucket>, ts: seq<TaxLine>, code: string)
    requires DistinctCodes(g)
    ensures DistinctCodes(GroupInto(round, g, ts))
    ensures CodeIn(GroupInto(round, g, ts), code) <==> CodeIn(g, code) || TaxedTo(ts, code)
    decreases |ts|
  {
    if ts != [] {
      AddTaxCodes(round, g, ts[0], code);
      OneCreditPerAccount(round, AddTax(round, g, ts[0]), ts[1..], code);
      assert TaxedTo(ts, code) <==> TaxCode(ts[0]) == code || TaxedTo(ts[1..], code);
    }
  }

  ghost predicate WholeTaxes(ts: seq<TaxLine>) {
    forall t :: t in ts ==> Whole(t.amount)
  }

  /** n roundings: nothing when every amount is whole, at most half a kobo each otherwise. */
  function Slack(whole: bool, n: nat): real {
    if whole then 0.0 else 0.5 * n as real
  }

  lemma RoundError(round: real -> int, n: int, x: real, whole: bool)
    requires Nearest(round) && (whole ==> Whole(x))
    ensures Near(round(n as real + x) as real, n as real + x, Slack(whole, 1))
  {
    var k := round(n as real + x);
    if whole {
      assert -0.5 <= (k - n - x.Floor) as real <= 0.5;
    }
  }

  lemma AddTaxDrift(round: real -> int, g: seq<Bucket>, t: TaxLine, whole: bool)
    requires Nearest(round) && (whole ==> Whole(t.amount))
    ensures Near(Sum(AddTax(round, g, t), BucketAmount()) as real, Sum(g, BucketAmount()) as real + t.amount,
                 Slack(whole, 1))
  {
    match FindBucket(g, TaxCode(t))
    case None =>
      RoundError(round, 0, t.amount, whole);
      assert 0 as real + t.amount == t.amount;
      SumAppend(g, Bucket(TaxCode(t), round(t.amount), [t.name]), BucketAmount());
    case Some(i) =>
      RoundError(round, g[i].amount, t.amount, whole);
      SumUpdate(g, i, AddTax(round, g, t)[i], BucketAmount());
  }

  lemma {:induction false} GroupDrift(round: real -> int, g: seq<Bucket>, ts: seq<TaxLine>, whole: bool)
    requires Nearest(round) && (whole ==> WholeTaxes(ts))
    ensures Near(Sum(GroupInto(round, g, ts), BucketAmount()) as real,
                 Sum(g, BucketAmount()) as real + RSum(ts, TaxAmount()), Slack(whole, |ts|))
    decreases |ts|
  {
    if ts != [] {
      var g' := AddTax(round, g, ts[0]);
      AddTaxDrift(round, g, ts[0], whole);
      GroupDrift(round, g', ts[1..], whole);
      assert Slack(whole, |ts|) == Slack(whole, 1) + Slack(whole, |ts[1..]|);
    }
  }

  // ---- the planned journal balances ----

  function PlannedDebit(): Planned -> real {
    (p: Planned) => p.debit
  }

  function PlannedCredit(): Planned -> real {
    (p: Planned) => p.credit
  }

  lemma {:induction false} BucketSums(g: seq<Bucket>, number: string)
    ensures RSum(Map(g, BucketEntry(number)), PlannedDebit()) == 0.0
    ensures RSum(Map(g, BucketEntry(number)), PlannedCredit()) == Sum(g, BucketAmount()) as real
  {
    if g != [] {
      BucketSums(g[1..], number);
      assert Map(g, BucketEntry(number))[1..] == Map(g[1..], BucketEntry(number));
    }
  }

  ghost predicate NonNegativeTaxes(sale: Sale) {
    && sale.taxAmount >= 0.0
    && forall t :: t in sale.taxes ==> t.amount >= 0.0
  }

  lemma {:induction false} TaxSumNonNegative(ts: seq<TaxLine>)
    requires forall t :: t in ts ==> t.amount >= 0.0
    ensures RSum(ts, TaxAmount()) >= 0.0
  {
    if ts != [] {
      TaxSumNonNegative(ts[1..]);
    }
  }

  lemma PlanSums(round: real -> int, sale: Sale)
    ensures RSum(Plan(round, sale), PlannedDebit()) - RSum(Plan(round, sale), PlannedCredit())
         == TaxTotal(round, sale) + RSum(TaxEntries(round, sale), PlannedDebit())
            - RSum(TaxEntries(round, sale), PlannedCredit())
  {
    var m, t, c := [MoneyEntry(sale), RevenueEntry(sale, TaxTotal(round, sale))], TaxEntries(round, sale), CostEntries(sale);
    RSumConcat(m + t, c, PlannedDebit());
    RSumConcat(m + t, c, PlannedCredit());
    RSumConcat(m, t, PlannedDebit());
    RSumConcat(m, t, PlannedCredit());
    RSumPair(m[0], m[1], PlannedDebit());
    RSumPair(m[0], m[1], PlannedCredit());
    if c != [] {
      RSumPair(c[0], c[1], PlannedDebit());
      RSumPair(c[0], c[1], PlannedCredit());
    }
  }

  /** With a breakdown, the tax credits miss the tax total by the bucket roundings and the one on the total. */
  lemma BreakdownDrift(round: real -> int, sale: Sale, whole: bool)
    requires Nearest(round) && sale.taxes != [] && (whole ==> WholeTaxes(sale.taxes))
    ensures Near(Sum(GroupInto(round, [], sale.taxes), BucketAmount()) as real, TaxTotal(round, sale),
                 Slack(whole, |sale.taxes| + 1))
  {
    GroupDrift(round, [], sale.taxes, whole);
    var all := RSum(sale.taxes, TaxAmount());
    if whole {
      WholeTaxSum(sale.taxes);
    }
    RoundError(round, 0, all, whole);
    assert 0 as real + all == all;
  }

  /**
   Debits meet credits exactly for whole-kobo taxes; otherwise they drift by at
   most half a kobo for each tax line and half for the total.
   */
  lemma SaleJournalBalances(round: real -> int, sale: Sale, whole: bool)
    requires Nearest(round) && NonNegativeTaxes(sale)
    requires whole ==> WholeTaxes(sale.taxes)
    ensures Near(RSum(Plan(round, sale), PlannedDebit()), RSum(Plan(round, sale), PlannedCredit()),
                 Slack(whole, |sale.taxes| + 1))
  {
    PlanSums(round, sale);
    if sale.taxes != [] {
      BreakdownDrift(round, sale, whole);
      BucketSums(GroupInto(round, [], sale.taxes), sale.number);
      TaxSumNonNegative(sale.taxes);
      assert TaxTotal(round, sale) >= 0.0;
    } else if TaxTotal(round, sale) > 0.0 {
      assert TaxEntries(round, sale)[1..] == [];
      assert RSum(TaxEntries(round, sale)[1..], PlannedCredit()) == 0.0;
    }
  }

  lemma {:induction false} WholeTaxSum(ts: seq<TaxLine>)
    requires WholeTaxes(ts)
    ensures Whole(RSum(ts, TaxAmount()))
  {
    if ts != [] {
      WholeTaxSum(ts[1..]);
      var a, b := ts[0].amount.Floor, RSum(ts[1..], TaxAmount()).Floor;
      assert RSum(ts, TaxAmount()) == (a + b) as real;
    }
  }
}
