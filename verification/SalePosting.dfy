/**
 _post_sale_journal: the planned entries of a sale are resolved against the
 chart, written one by one with their own time stamps, and an unpaid sale gets
 its receivable in the same commit.
 */
module SalePosting {
  import opened Results
  import opened Sums
  import opened Ledger
  import opened Posting
  import opened SubLedger
  import opened Sales

  predicate Wanted(plan: seq<Planned>, code: string) {
    exists p :: p in plan && p.code == code
  }

  /**
   The accounts are fetched for the planned codes only, so the fall-back to
   cash can fire only when some entry already books to 1000.
   */
  function Resolve(chart: seq<Account>, plan: seq<Planned>, code: string): (a: Option<Account>)
    ensures a.Some? ==> a.value in chart && (a.value.code == code || a.value.code == CASH)
  {
    match AccountByCode(chart, code)
    case Some(a) => Some(a)
    case None =>
      if (code == BANK || code == RECEIVABLE) && Wanted(plan, CASH) then AccountByCode(chart, CASH) else None
  }

  predicate Resolvable(chart: seq<Account>, plan: seq<Planned>) {
    forall p :: p in plan ==> Resolve(chart, plan, p.code).Some?
  }

  function LineOf(chart: seq<Account>, plan: seq<Planned>, clock: nat -> int, i: nat): Line
    requires i < |plan| && Resolvable(chart, plan)
  {
    var a := Resolve(chart, plan, plan[i].code).value;
    Line(a.id, a.code, Round(plan[i].debit), Round(plan[i].credit), plan[i].desc, true, Some(clock(i)))
  }

  function SaleLines(chart: seq<Account>, plan: seq<Planned>, clock: nat -> int): seq<Line>
    requires Resolvable(chart, plan)
  {
    seq(|plan|, i requires 0 <= i < |plan| => LineOf(chart, plan, clock, i))
  }

  predicate BooksTo(lines: seq<Line>, code: string) {
    exists l :: l in lines && l.code == code
  }

  function SaleHeader(sale: Sale): Header {
    Header("Sale: " + sale.number, Some(sale.id), SaleRef, sale.store)
  }

  predicate OpensRow(sale: Sale, lines: seq<Line>) {
    !sale.settled && BooksTo(lines, RECEIVABLE)
  }

  function SaleRow(id: nat, sale: Sale, at: int): Row {
    OpenRow(id, sale.number, Round(sale.total), sale.store, at, "")
  }

  /** The commit: header, lines, and the receivable of an unpaid sale that debited 1100. */
  function CommitSale(s: State, sale: Sale, lines: seq<Line>, postedAt: int, rowAt: int): State {
    var s1 := AddJournal(s, SaleHeader(sale), lines, postedAt);
    if OpensRow(sale, lines) then s1.(ar := s1.ar + [SaleRow(s1.next, sale, rowAt)], next := s1.next + 1) else s1
  }

  function PostPlanned(s: State, sale: Sale, plan: seq<Planned>, clock: nat -> int): Result<State> {
    if !Resolvable(s.chart, plan) then Err(AccountMissing)
    else Ok(CommitSale(s, sale, SaleLines(s.chart, plan, clock), clock(|plan|), clock(|plan| + 1)))
  }

  function PostSale(s: State, sale: Sale, clock: nat -> int): Result<State> {
    PostPlanned(s, sale, Plan(Round, sale), clock)
  }

  // ---- what a plan can contain ----

  /** The fixed codes of a sale's plan, apart from its debit. */
  predicate SaleCode(code: string) {
    code == REVENUE || code == VAT || code == COGS || code == INVENTORY
  }

  /** The debit comes first; every other entry is fixed or a tax, and only the cost of goods is a debit. */
  ghost predicate Shaped(sale: Sale, plan: seq<Planned>) {
    && |plan| > 0
    && plan[0].code == DebitCode(sale) && plan[0].debit == sale.total && plan[0].credit == 0.0
    && forall i :: 0 < i < |plan| ==>
         && (SaleCode(plan[i].code) || TaxedTo(sale.taxes, plan[i].code))
         && (plan[i].code != COGS ==> plan[i].debit == 0.0)
         && (plan[i].code != REVENUE && NonNegativeTaxes(sale) ==> plan[i].credit >= 0.0)
  }

  lemma {:induction false} BucketsNonNegative(round: real -> int, g: seq<Bucket>, ts: seq<TaxLine>)
    requires Nearest(round) && (forall b :: b in g ==> b.amount >= 0) && (forall t :: t in ts ==> t.amount >= 0.0)
    ensures forall b :: b in GroupInto(round, g, ts) ==> b.amount >= 0
    decreases |ts|
  {
    if ts != [] {
      var t := ts[0];
      var g' := AddTax(round, g, t);
      forall b | b in g'
        ensures b.amount >= 0
      {
        assert round(t.amount) as real - t.amount >= -0.5;
        match FindBucket(g, TaxCode(t))
        case None =>
        case Some(i) =>
          assert g[i] in g;
          assert round(g[i].amount as real + t.amount) as real - (g[i].amount as real + t.amount) >= -0.5;
      }
      BucketsNonNegative(round, g', ts[1..]);
    }
  }

  lemma PlanIsShaped(round: real -> int, sale: Sale)
    requires Nearest(round)
    ensures Shaped(sale, Plan(round, sale))
  {
    var plan := Plan(round, sale);
    var tax := TaxEntries(round, sale);
    forall i | 0 < i < |plan|
      ensures SaleCode(plan[i].code) || TaxedTo(sale.taxes, plan[i].code)
      ensures plan[i].code != COGS ==> plan[i].debit == 0.0
      ensures plan[i].code != REVENUE && NonNegativeTaxes(sale) ==> plan[i].credit >= 0.0
    {
      if 2 <= i < 2 + |tax| {
        assert plan[i] == tax[i - 2];
        if sale.taxes != [] {
          var g := GroupInto(round, [], sale.taxes);
          OneCreditPerAccount(round, [], sale.taxes, g[i - 2].code);
          assert g[i - 2] in g;
          if NonNegativeTaxes(sale) {
            BucketsNonNegative(round, [], sale.taxes);
          }
        }
      } else if i >= 2 + |tax| {
        assert plan[i] == CostEntries(sale)[i - 2 - |tax|];
      }
    }
  }

  lemma CodesDiffer()
    ensures CASH != BANK && CASH != RECEIVABLE && CASH != PAYABLE && BANK != RECEIVABLE && BANK != PAYABLE
    ensures RECEIVABLE != PAYABLE && RECEIVABLE != REVENUE && PAYABLE != REVENUE && CASH != REVENUE
    ensures forall c :: SaleCode(c) ==> c != CASH && c != BANK && c != RECEIVABLE && c != PAYABLE
  {
    assert CASH[1] == '0' && CASH[2] == '0' && BANK[1] == '0' && BANK[2] == '1' && RECEIVABLE[1] == '1';
    assert CASH[0] == '1' && BANK[0] == '1' && RECEIVABLE[0] == '1' && PAYABLE[0] == '2' && PAYABLE[1] == '0';
    assert REVENUE[0] == '4' && COGS[0] == '5' && INVENTORY[0] == '1' && INVENTORY[1] == '2' && VAT[0] == '2' && VAT[1] == '3';
  }

  predicate CashFreeTaxes(ts: seq<TaxLine>) {
    !TaxedTo(ts, CASH) && !TaxedTo(ts, BANK) && !TaxedTo(ts, RECEIVABLE)
  }

  lemma ResolvesToItself(chart: seq<Account>, sale: Sale, plan: seq<Planned>, p: Planned)
    requires Shaped(sale, plan) && CashFreeTaxes(sale.taxes) && p in plan
    ensures Resolve(chart, plan, p.code) == AccountByCode(chart, p.code)
  {
    CodesDiffer();
    var k :| 0 <= k < |plan| && plan[k] == p;
    if Wanted(plan, CASH) {
      var q :| q in plan && q.code == CASH;
      var m :| 0 <= m < |plan| && plan[m] == q;
    }
  }

  /**
   The documented fall-back to cash is dead code unless a tax is booked to
   1000, 1010 or 1100: otherwise a sale posts exactly when every planned code
   is in the chart, and every line keeps its planned code.
   */
  lemma NoFallback(s: State, sale: Sale, plan: seq<Planned>, clock: nat -> int)
    requires plan == Plan(Round, sale) && CashFreeTaxes(sale.taxes)
    ensures PostSale(s, sale, clock).Ok? <==> forall p :: p in plan ==> AccountByCode(s.chart, p.code).Some?
    ensures PostSale(s, sale, clock).Ok? ==>
              forall k :: 0 <= k < |plan| ==> SaleLines(s.chart, plan, clock)[k].code == plan[k].code
  {
    RoundIsNearest();
    PlanIsShaped(Round, sale);
    forall p | p in plan
      ensures Resolve(s.chart, plan, p.code) == AccountByCode(s.chart, p.code)
    {
      ResolvesToItself(s.chart, sale, plan, p);
    }
  }

  // ---- what a posted sale does to the control accounts ----

  /**
   On the receivable control account a sale books its rounded total when unpaid
   and nothing when settled; on the payable control account, nothing at all.
   */
  lemma SaleControl(chart: seq<Account>, sale: Sale, plan: seq<Planned>, clock: nat -> int, a: Account)
    requires ChartOk(chart) && a in chart && (a.code == RECEIVABLE || a.code == PAYABLE)
    requires Shaped(sale, plan) && !TaxedTo(sale.taxes, a.code) && Resolvable(chart, plan)
    ensures Sum(SaleLines(chart, plan, clock), OnAccount(a.id)) == if DebitCode(sale) == a.code then Round(sale.total) else 0
  {
    var lines := SaleLines(chart, plan, clock);
    CodesDiffer();
    RoundWhole(0);
    forall k | 0 <= k < |lines|
      ensures lines[k].account == a.id <==> k == 0 && DebitCode(sale) == a.code
    {
      var b := Resolve(chart, plan, plan[k].code).value;
      SameIdSameAccount(chart, a, b);
    }
    SumOnly(lines, 0, OnAccount(a.id));
  }

  /** A receivable row is opened exactly for an unpaid sale whose chart has account 1100. */
  lemma SaleOpensRow(chart: seq<Account>, sale: Sale, plan: seq<Planned>, clock: nat -> int)
    requires Shaped(sale, plan) && !TaxedTo(sale.taxes, RECEIVABLE) && Resolvable(chart, plan) && !sale.settled
    ensures OpensRow(sale, SaleLines(chart, plan, clock)) <==> AccountByCode(chart, RECEIVABLE).Some?
  {
    var lines := SaleLines(chart, plan, clock);
    CodesDiffer();
    if AccountByCode(chart, RECEIVABLE).Some? {
      assert lines[0].code == RECEIVABLE;
      assert lines[0] in lines;
    }
  }

  // ---- a whole-kobo sale is stored exactly balanced ----

  function Stored(): Planned -> int {
    (p: Planned) => Round(p.debit) - Round(p.credit)
  }

  lemma {:induction false} StoredSum(lines: seq<Line>, plan: seq<Planned>)
    requires |lines| == |plan|
    requires forall k :: 0 <= k < |plan| ==> Net()(lines[k]) == Stored()(plan[k])
    ensures Sum(lines, Net()) == Sum(plan, Stored())
  {
    if plan != [] {
      StoredSum(lines[1..], plan[1..]);
    }
  }

  lemma {:induction false} StoredBuckets(g: seq<Bucket>, number: string)
    ensures Sum(Map(g, BucketEntry(number)), Stored()) == -Sum(g, BucketAmount())
  {
    if g != [] {
      StoredBuckets(g[1..], number);
      RoundWhole(0);
      RoundWhole(g[0].amount);
      assert Map(g, BucketEntry(number))[1..] == Map(g[1..], BucketEntry(number));
    }
  }

  ghost predicate WholeSale(sale: Sale) {
    Whole(sale.total) && Whole(sale.taxAmount) && WholeTaxes(sale.taxes) && NonNegativeTaxes(sale)
  }

  lemma WholeTaxTotal(sale: Sale)
    requires WholeSale(sale)
    ensures Whole(TaxTotal(Round, sale))
    ensures Sum(TaxEntries(Round, sale), Stored()) == -TaxTotal(Round, sale).Floor
  {
    RoundIsNearest();
    RoundWhole(0);
    if sale.taxes != [] {
      BreakdownDrift(Round, sale, true);
      TaxSumNonNegative(sale.taxes);
      StoredBuckets(GroupInto(Round, [], sale.taxes), sale.number);
    } else if TaxTotal(Round, sale) > 0.0 {
      RoundWhole(sale.taxAmount.Floor);
      assert TaxEntries(Round, sale)[1..] == [];
      assert Sum(TaxEntries(Round, sale)[1..], Stored()) == 0;
    }
  }

  lemma WholeSaleBalances(s: State, sale: Sale, clock: nat -> int)
    requires WholeSale(sale) && Resolvable(s.chart, Plan(Round, sale))
    ensures Sum(SaleLines(s.chart, Plan(Round, sale), clock), Net()) == 0
  {
    var plan := Plan(Round, sale);
    StoredSum(SaleLines(s.chart, plan, clock), plan);
    var m, t, c := [MoneyEntry(sale), RevenueEntry(sale, TaxTotal(Round, sale))], TaxEntries(Round, sale), CostEntries(sale);
    SumConcat(m + t, c, Stored());
    SumConcat(m, t, Stored());
    SumPair(m[0], m[1], Stored());
    if c != [] {
      SumPair(c[0], c[1], Stored());
    }
    WholeTaxTotal(sale);
    RoundWhole(0);
    RoundWhole(sale.total.Floor);
    RoundWhole(sale.total.Floor - TaxTotal(Round, sale).Floor);
    assert sale.total - TaxTotal(Round, sale) == (sale.total.Floor - TaxTotal(Round, sale).Floor) as real;
  }
}
