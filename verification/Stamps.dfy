/**
 The stamps of journals over runs: only a sale's lines are stamped apart from
 their header, so only a sale can be split by a cut-off; and when the clock
 runs forward what a cut-off counts of a sale is a first part of its entries.
 */
module Stamps {
  import opened Results
  import opened Sums
  import opened Ledger
  import opened Posting
  import opened Sales
  import opened SalePosting
  import opened Runs
  import opened Reach
  import opened Reports
  import opened CashFlow

  ghost predicate AllAsWritten(s: State) {
    forall j :: j in s.journals ==> StampedAsWritten(j)
  }

  function JournalOfSale(s: State, sale: Sale, clock: nat -> int): Journal
    requires Resolvable(s.chart, Plan(Round, sale))
  {
    var plan := Plan(Round, sale);
    NewJournal(s.next, SaleHeader(sale), SaleLines(s.chart, plan, clock), clock(|plan|))
  }

  lemma SaleIsDated(s: State, sale: Sale, clock: nat -> int)
    requires Resolvable(s.chart, Plan(Round, sale))
    ensures StampedAsWritten(JournalOfSale(s, sale, clock))
  {
    var lines := SaleLines(s.chart, Plan(Round, sale), clock);
    forall l | l in lines
      ensures l.posted && l.at.Some?
    {
      var k :| 0 <= k < |lines| && lines[k] == l;
    }
  }

  lemma MovesKeepAsWritten(s: State, s': State)
    requires AllAsWritten(s) && Moves(s, s', true)
    ensures AllAsWritten(s')
  {
    forall i | 0 <= i < |s'.journals|
      ensures StampedAsWritten(s'.journals[i])
    {
      assert i < |s.journals| ==> s.journals[i] in s.journals;
    }
  }

  lemma StepAsWritten(s: State, op: Op)
    requires Inv(s) && AllAsWritten(s) && SaleOk(op) && Step(s, op).Ok?
    ensures AllAsWritten(Next(s, op))
  {
    var s' := Next(s, op);
    if op.Sell? {
      SaleIsDated(s, op.sale, op.clock);
      assert s'.journals == s.journals + [JournalOfSale(s, op.sale, op.clock)];
    } else if !op.DropAccount? {
      StepMoves(s, op);
      MovesKeepAsWritten(s, s');
    }
  }

  /** In every reachable state only sales stamp their lines apart from their header. */
  lemma {:induction false} AsWrittenOverRuns(s: State, ops: seq<Op>)
    requires Inv(s) && AllAsWritten(s) && forall op :: op in ops ==> SaleOk(op)
    ensures AllAsWritten(Run(s, ops))
    decreases |ops|
  {
    if ops != [] {
      if Step(s, ops[0]).Ok? {
        StepAsWritten(s, ops[0]);
      }
      StepKeepsInv(s, ops[0]);
      AsWrittenOverRuns(Next(s, ops[0]), ops[1..]);
    }
  }

  // ---- what a cut-off catches of a sale ----

  lemma OneStampNotSplit(j: Journal, at: int)
    requires OneStamp(j)
    ensures !Split(j, at)
  {
    if l :| l in j.lines && UpTo(at)(l) {
      assert forall k :: k in j.lines ==> UpTo(at)(k);
    }
  }

  /** The counted part of the sales the cut-off splits. */
  function CaughtSale(at: int, store: Option<nat>): Journal -> int {
    (j: Journal) => if j.kind == SaleRef && InStore(j, store) && Split(j, at) then Sum(j.lines, CountedLine(at)) else 0
  }

  ghost predicate OneStampOrSale(j: Journal) {
    j.kind == SaleRef || OneStamp(j)
  }

  lemma AllAreAsWritten(s: State)
    requires AllAsWritten(s)
    ensures forall j :: j in s.journals ==> OneStampOrSale(j)
  {
    forall j | j in s.journals
      ensures OneStampOrSale(j)
    {
      assert StampedAsWritten(j);
    }
  }

  lemma OnlySalesAreCaught(js: seq<Journal>, at: int, store: Option<nat>)
    requires forall j :: j in js ==> OneStampOrSale(j)
    ensures Sum(js, Caught(at, store)) == Sum(js, CaughtSale(at, store))
  {
    forall j | j in js
      ensures Caught(at, store)(j) == CaughtSale(at, store)(j)
    {
      assert OneStampOrSale(j);
      if j.kind != SaleRef {
        OneStampNotSplit(j, at);
      }
    }
    SumSame(js, Caught(at, store), CaughtSale(at, store));
  }

  // ---- clocks that run forward ----

  /** The lines of the sale are stamped in the order they are written. */
  ghost predicate RisingSale(op: Op) {
    op.Sell? ==> forall i, k :: 0 <= i < k < |Plan(Round, op.sale)| ==> op.clock(i) <= op.clock(k)
  }

  ghost predicate InOrder(ls: seq<Line>) {
    && (forall l :: l in ls ==> l.posted && l.at.Some?)
    && (forall i, k :: 0 <= i < k < |ls| ==> ls[i].at.Some? && ls[k].at.Some? && ls[i].at.value <= ls[k].at.value)
  }

  /** No first part of the lines has more credits than debits. */
  ghost predicate DebitsFirst(ls: seq<Line>) {
    forall k :: 0 <= k <= |ls| ==> Sum(ls[..k], Net()) >= 0
  }

  ghost predicate Rising(j: Journal) {
    j.kind == SaleRef ==> InOrder(j.lines) && DebitsFirst(j.lines)
  }

  lemma LaterUncounted(ls: seq<Line>, at: int)
    requires InOrder(ls) && ls != [] && ls[0].at.Some? && ls[0].at.value > at
    ensures Sum(ls, CountedLine(at)) == 0
  {
    forall l | l in ls
      ensures CountedLine(at)(l) == 0
    {
      var i :| 0 <= i < |ls| && ls[i] == l;
      assert i > 0 ==> ls[0].at.value <= ls[i].at.value;
      assert l.at.Some? && l.at.value > at;
      assert !UpTo(at)(l);
    }
    SumZero(ls, CountedLine(at));
  }

  /** What is counted of lines stamped in order is a first part of them. */
  lemma {:induction false} CountedIsFirstPart(ls: seq<Line>, at: int) returns (k: nat)
    requires InOrder(ls)
    ensures k <= |ls| && Sum(ls, CountedLine(at)) == Sum(ls[..k], Net())
  {
    k := 0;
    if ls != [] {
      assert ls[0] in ls;
      if ls[0].at.value <= at {
        k := CountedIsFirstPart(ls[1..], at);
        k := k + 1;
        assert ls[..k] == [ls[0]] + ls[1..][..k - 1];
        assert ls[..k][1..] == ls[1..][..k - 1];
        assert UpTo(at)(ls[0]);
      } else {
        LaterUncounted(ls, at);
      }
    }
  }

  /** A sale of the store whose counted lines do not balance. */
  predicate OutOfBalance(j: Journal, at: int, store: Option<nat>) {
    j.kind == SaleRef && InStore(j, store) && Sum(j.lines, CountedLine(at)) != 0
  }

  lemma CaughtOfRising(j: Journal, at: int, store: Option<nat>)
    requires Rising(j) && JNet()(j) == 0
    ensures CaughtSale(at, store)(j) >= 0 && (CaughtSale(at, store)(j) == 0 <==> !OutOfBalance(j, at, store))
  {
    if j.kind == SaleRef {
      WholeJournalCounts(j, at, store);
      var k := CountedIsFirstPart(j.lines, at);
    }
  }

  /** With rising stamps nothing is caught exactly when no sale of the store is counted out of balance. */
  lemma {:induction false} CaughtIff(js: seq<Journal>, at: int, store: Option<nat>)
    requires forall j :: j in js ==> Rising(j) && JNet()(j) == 0
    ensures Sum(js, CaughtSale(at, store)) >= 0
    ensures Sum(js, CaughtSale(at, store)) == 0 <==> forall j :: j in js ==> !OutOfBalance(j, at, store)
  {
    if js != [] {
      assert js[0] in js;
      CaughtOfRising(js[0], at, store);
      CaughtIff(js[1..], at, store);
      assert forall k :: k in js <==> k == js[0] || k in js[1..];
    }
  }

  // ---- a sale's entries put debits first ----

  lemma {:induction false} CreditsShrink(ps: seq<Planned>, k: nat)
    requires k <= |ps| && forall p :: p in ps ==> Stored()(p) <= 0
    ensures Sum(ps[..k], Stored()) >= Sum(ps, Stored())
  {
    assert ps == ps[..k] + ps[k..];
    SumConcat(ps[..k], ps[k..], Stored());
    CreditsSum(ps[k..]);
  }

  lemma {:induction false} CreditsSum(ps: seq<Planned>)
    requires forall p :: p in ps ==> Stored()(p) <= 0
    ensures Sum(ps, Stored()) <= 0
  {
    if ps != [] {
      CreditsSum(ps[1..]);
    }
  }

  /** No negative tax, and the tax not above the total. */
  ghost predicate TaxCovered(sale: Sale) {
    NonNegativeTaxes(sale) && sale.total >= 0.0 && sale.total >= TaxTotal(Round, sale)
  }

  ghost predicate CoveredSale(op: Op) {
    op.Sell? ==> TaxCovered(op.sale)
  }

  /** Total and taxes in whole kobo besides. */
  ghost predicate FairSale(op: Op) {
    op.Sell? ==> WholeSale(op.sale) && TaxCovered(op.sale)
  }

  lemma TaxEntriesAreCredits(sale: Sale)
    requires WholeSale(sale)
    ensures forall p :: p in TaxEntries(Round, sale) ==> Stored()(p) <= 0
  {
    var es := TaxEntries(Round, sale);
    RoundWhole(0);
    RoundIsNearest();
    forall p | p in es
      ensures Stored()(p) <= 0
    {
      if sale.taxes != [] {
        var g := GroupInto(Round, [], sale.taxes);
        var k :| 0 <= k < |es| && es[k] == p;
        BucketsNonNegative(Round, [], sale.taxes);
        assert g[k] in g;
        RoundNonNegative(p.credit);
      } else {
        RoundNonNegative(p.credit);
      }
    }
  }

  lemma MoneyPart(sale: Sale, k: nat)
    requires WholeSale(sale) && TaxCovered(sale) && k <= 2
    ensures var m := [MoneyEntry(sale), RevenueEntry(sale, TaxTotal(Round, sale))];
            Sum(m[..k], Stored()) >= 0 && Sum(m, Stored()) == TaxTotal(Round, sale).Floor
  {
    var m := [MoneyEntry(sale), RevenueEntry(sale, TaxTotal(Round, sale))];
    WholeTaxTotal(sale);
    TaxTotalNonNegative(sale);
    RoundWhole(0);
    RoundWhole(sale.total.Floor);
    RoundWhole(sale.total.Floor - TaxTotal(Round, sale).Floor);
    assert sale.total - TaxTotal(Round, sale) == (sale.total.Floor - TaxTotal(Round, sale).Floor) as real;
    SumPair(m[0], m[1], Stored());
    if k == 1 {
      assert m[..1] == [m[0]] && [m[0]][1..] == [];
    } else if k == 2 {
      assert m[..2] == m;
    }
  }

  lemma TaxTotalNonNegative(sale: Sale)
    requires NonNegativeTaxes(sale)
    ensures TaxTotal(Round, sale) >= 0.0
  {
    TaxSumNonNegative(sale.taxes);
    RoundNonNegative(RSum(sale.taxes, TaxAmount()));
  }

  lemma GoodsPart(sale: Sale, k: nat)
    requires k <= |CostEntries(sale)|
    ensures Sum(CostEntries(sale)[..k], Stored()) >= 0
  {
    var c := CostEntries(sale);
    if k == 1 {
      RoundWhole(0);
      RoundNonNegative(RSum(sale.items, ItemCost()));
      assert c[..1] == [c[0]] && [c[0]][1..] == [];
    } else if k == 2 {
      RoundWhole(0);
      assert c[..2] == c == [c[0], c[1]];
      SumPair(c[0], c[1], Stored());
    }
  }

  lemma MoneyAndTaxes(sale: Sale, k: nat)
    requires WholeSale(sale) && TaxCovered(sale) && k <= |TaxEntries(Round, sale)|
    ensures Sum([MoneyEntry(sale), RevenueEntry(sale, TaxTotal(Round, sale))] + TaxEntries(Round, sale)[..k], Stored()) >= 0
  {
    var t := TaxEntries(Round, sale);
    MoneyPart(sale, 2);
    SumConcat([MoneyEntry(sale), RevenueEntry(sale, TaxTotal(Round, sale))], t[..k], Stored());
    TaxEntriesAreCredits(sale);
    CreditsShrink(t, k);
    WholeTaxTotal(sale);
  }

  lemma PlanDebitsFirst(sale: Sale, k: nat)
    requires WholeSale(sale) && TaxCovered(sale) && k <= |Plan(Round, sale)|
    ensures Sum(Plan(Round, sale)[..k], Stored()) >= 0
  {
    var m, t, c := [MoneyEntry(sale), RevenueEntry(sale, TaxTotal(Round, sale))], TaxEntries(Round, sale), CostEntries(sale);
    var plan := Plan(Round, sale);
    if k <= 2 {
      MoneyPart(sale, k);
      assert plan[..k] == m[..k];
    } else if k <= 2 + |t| {
      MoneyAndTaxes(sale, k - 2);
      assert plan[..k] == m + t[..k - 2];
    } else {
      MoneyAndTaxes(sale, |t|);
      assert t[..|t|] == t && plan[..k] == (m + t) + c[..k - 2 - |t|];
      SumConcat(m + t, c[..k - 2 - |t|], Stored());
      GoodsPart(sale, k - 2 - |t|);
    }
  }

  lemma SaleIsRising(s: State, op: Op)
    requires op.Sell? && RisingSale(op) && FairSale(op) && Resolvable(s.chart, Plan(Round, op.sale))
    ensures Rising(JournalOfSale(s, op.sale, op.clock))
  {
    var plan := Plan(Round, op.sale);
    var lines := SaleLines(s.chart, plan, op.clock);
    forall k | 0 <= k <= |lines|
      ensures Sum(lines[..k], Net()) >= 0
    {
      StoredSum(lines[..k], plan[..k]);
      PlanDebitsFirst(op.sale, k);
    }
    forall l | l in lines
      ensures l.posted && l.at.Some?
    {
      var k :| 0 <= k < |lines| && lines[k] == l;
    }
  }

  ghost predicate AllRising(s: State) {
    forall j :: j in s.journals ==> Rising(j)
  }

  lemma MovesKeepRising(s: State, s': State)
    requires AllRising(s) && Moves(s, s', true)
    ensures AllRising(s')
  {
    forall i | 0 <= i < |s'.journals|
      ensures Rising(s'.journals[i])
    {
      assert i < |s.journals| ==> s.journals[i] in s.journals;
    }
  }

  lemma StepRising(s: State, op: Op)
    requires Inv(s) && AllRising(s) && RisingSale(op) && FairSale(op) && Step(s, op).Ok?
    ensures AllRising(Next(s, op))
  {
    var s' := Next(s, op);
    if op.Sell? {
      SaleIsRising(s, op);
      assert s'.journals == s.journals + [JournalOfSale(s, op.sale, op.clock)];
    } else if !op.DropAccount? {
      StepMoves(s, op);
      MovesKeepRising(s, s');
    }
  }

  lemma {:induction false} RisingOverRuns(s: State, ops: seq<Op>)
    requires Inv(s) && AllRising(s) && forall op :: op in ops ==> RisingSale(op) && FairSale(op)
    ensures AllRising(Run(s, ops))
    decreases |ops|
  {
    if ops != [] {
      var op := ops[0];
      assert op in ops && RisingSale(op) && FairSale(op);
      if Step(s, op).Ok? {
        StepRising(s, op);
      }
      StepKeepsInv(s, op);
      RisingOverRuns(Next(s, op), ops[1..]);
    }
  }
}
