/**
 Runs that mix requests of any amount with journals posted by hand, which may
 name any account and carry any sign: only the hand-posted ones and sales that
 are not in whole kobo can put the books out, and by no more than their roundings.
 */
module Mixed {
  import opened Results
  import opened Sums
  import opened Ledger
  import opened Posting
  import opened SubLedger
  import opened Sales
  import opened SalePosting
  import opened Runs
  import opened Reach
  import opened Reports
  import opened Stamps
  import opened Audit
  import TaxRuns

  datatype Manual = Manual(header: Header, entries: seq<Entry>, now: int)

  datatype Act = Request(op: Op) | ByHand(manual: Manual)

  function Post(s: State, m: Manual): Result<State> {
    PostJournal(s, m.header, m.entries, m.now)
  }

  function Do(s: State, a: Act): State {
    match a
    case Request(op) => Next(s, op)
    case ByHand(m) => match Post(s, m) case Ok(s') => s' case Err(_) => s
  }

  function DoAll(s: State, acts: seq<Act>): State
    decreases |acts|
  {
    if acts == [] then s else DoAll(Do(s, acts[0]), acts[1..])
  }

  /** In half kobo: what an accepted journal of these entries may be off by. */
  function EntryAllowance(m: Manual, oneSided: bool): int {
    if oneSided then 2 + |m.entries| else 2 + 2 * |m.entries|
  }

  /** The same for a sale: nothing in whole kobo, otherwise one for each tax line and three for the total, the revenue and the tax. */
  ghost function SaleAllowance(sale: Sale): int {
    if WholeSale(sale) then 0 else |sale.taxes| + 3
  }

  ghost function ActAllowance(s: State, a: Act, oneSided: bool): int {
    match a
    case Request(op) => if op.Sell? && Step(s, op).Ok? then SaleAllowance(op.sale) else 0
    case ByHand(m) => if Post(s, m).Ok? then EntryAllowance(m, oneSided) else 0
  }

  /** The allowances of the sales and the hand-posted journals of the run that were accepted. */
  ghost function Allowances(s: State, acts: seq<Act>, oneSided: bool): int
    decreases |acts|
  {
    if acts == [] then 0 else ActAllowance(s, acts[0], oneSided) + Allowances(Do(s, acts[0]), acts[1..], oneSided)
  }

  ghost predicate Fair(a: Act, oneSided: bool) {
    match a
    case Request(op) => TaxRuns.TaxedFairly(op)
    case ByHand(m) => oneSided ==> forall e :: e in m.entries ==> OneSided(e)
  }

  // ---- how far a sale of any amount is stored off balance ----

  lemma TaxStored(sale: Sale)
    requires NonNegativeTaxes(sale)
    ensures var off := TaxTotal(Round, sale) + Sum(TaxEntries(Round, sale), Stored()) as real;
            Near(off, 0.0, 0.5 * (|sale.taxes| + 1) as real)
  {
    RoundIsNearest();
    RoundWhole(0);
    var ts := TaxEntries(Round, sale);
    if sale.taxes != [] {
      BreakdownDrift(Round, sale, false);
      TaxSumNonNegative(sale.taxes);
      StoredBuckets(GroupInto(Round, [], sale.taxes), sale.number);
    } else if TaxTotal(Round, sale) > 0.0 {
      assert ts[1..] == [];
      assert Sum(ts[1..], Stored()) == 0;
    }
  }

  lemma PlanStored(sale: Sale)
    ensures Sum(Plan(Round, sale), Stored())
         == Round(sale.total) - Round(sale.total - TaxTotal(Round, sale)) + Sum(TaxEntries(Round, sale), Stored())
  {
    var m, t, c := [MoneyEntry(sale), RevenueEntry(sale, TaxTotal(Round, sale))], TaxEntries(Round, sale), CostEntries(sale);
    RoundWhole(0);
    SumConcat(m + t, c, Stored());
    SumConcat(m, t, Stored());
    SumPair(m[0], m[1], Stored());
    if c != [] {
      SumPair(c[0], c[1], Stored());
    }
  }

  lemma SaleWithinAllowance(s: State, sale: Sale, clock: nat -> int)
    requires NonNegativeTaxes(sale) && Resolvable(s.chart, Plan(Round, sale))
    ensures var n := Sum(SaleLines(s.chart, Plan(Round, sale), clock), Net());
            -SaleAllowance(sale) <= 2 * n <= SaleAllowance(sale)
  {
    if WholeSale(sale) {
      WholeSaleBalances(s, sale, clock);
    } else {
      StoredSum(SaleLines(s.chart, Plan(Round, sale), clock), Plan(Round, sale));
      PlanStored(sale);
      TaxStored(sale);
      var n, b := Sum(Plan(Round, sale), Stored()), |sale.taxes| + 3;
      assert -(b as real) <= (2 * n) as real <= b as real;
    }
  }

  // ---- a bound for each journal, kept along the run ----

  function Itself(): int -> int {
    (x: int) => x
  }

  ghost predicate Bounded(js: seq<Journal>, bs: seq<int>) {
    |bs| == |js| && forall i :: 0 <= i < |js| ==> -bs[i] <= 2 * JNet()(js[i]) <= bs[i]
  }

  lemma AcceptedWithinAllowance(s: State, m: Manual, oneSided: bool)
    requires Post(s, m).Ok? && (oneSided ==> forall e :: e in m.entries ==> OneSided(e))
    ensures var b, n := EntryAllowance(m, oneSided), JNet()(Post(s, m).value.journals[|s.journals|]);
            -b <= 2 * n <= b
  {
    AcceptedImbalance(s, m.header, m.entries, m.now, oneSided);
    var n, b := JNet()(Post(s, m).value.journals[|s.journals|]), EntryAllowance(m, oneSided);
    assert 2.0 * (TOLERANCE + LineError(oneSided, |m.entries|)) == b as real;
    assert -(b as real) <= (2 * n) as real <= b as real;
  }

  lemma SaleBounds(s: State, op: Op, bs: seq<int>)
    requires op.Sell? && TaxRuns.TaxedFairly(op) && Step(s, op).Ok? && Bounded(s.journals, bs)
    ensures Bounded(Next(s, op).journals, bs + [SaleAllowance(op.sale)])
  {
    var j := JournalOfSale(s, op.sale, op.clock);
    assert Next(s, op).journals == s.journals + [j];
    SaleWithinAllowance(s, op.sale, op.clock);
  }

  lemma RequestBounds(s: State, op: Op, bs: seq<int>, oneSided: bool) returns (bs': seq<int>)
    requires Tidy(s) && TaxRuns.TaxedFairly(op) && Bounded(s.journals, bs)
    ensures Bounded(Next(s, op).journals, bs') && Tidy(Next(s, op))
    ensures Sum(bs', Itself()) == Sum(bs, Itself()) + ActAllowance(s, Request(op), oneSided)
  {
    var s' := Next(s, op);
    bs' := bs;
    if Step(s, op).Ok? && !op.DropAccount? {
      StepMoves(s, op);
      MovesKeepTidy(s, s', !op.Sell?);
      if op.Sell? {
        bs' := bs + [SaleAllowance(op.sale)];
        SumAppend(bs, SaleAllowance(op.sale), Itself());
        SaleBounds(s, op, bs);
      } else if |s'.journals| > |s.journals| {
        bs' := bs + [0];
        SumAppend(bs, 0, Itself());
        NewestNetsToZero(s, s');
      } else {
        OldestKeepTheirNet(s, s', true);
      }
    }
  }

  lemma NewestNetsToZero(s: State, s': State)
    requires Moves(s, s', true) && |s'.journals| > |s.journals|
    ensures |s'.journals| == |s.journals| + 1 && s'.journals[..|s.journals|] == s.journals
    ensures JNet()(s'.journals[|s.journals|]) == 0
  {
    PairIsSound(s'.journals[|s.journals|]);
  }

  lemma OldestKeepTheirNet(s: State, s': State, pair: bool)
    requires Moves(s, s', pair) && |s'.journals| <= |s.journals|
    ensures |s'.journals| == |s.journals| && forall i :: 0 <= i < |s.journals| ==> s'.journals[i].lines == s.journals[i].lines
  {
  }

  lemma {:induction false} RunBounds(s: State, acts: seq<Act>, oneSided: bool, bs: seq<int>) returns (bs': seq<int>)
    requires Tidy(s) && Bounded(s.journals, bs) && forall a :: a in acts ==> Fair(a, oneSided)
    ensures Bounded(DoAll(s, acts).journals, bs')
    ensures Sum(bs', Itself()) == Sum(bs, Itself()) + Allowances(s, acts, oneSided)
    decreases |acts|
  {
    bs' := bs;
    if acts != [] {
      assert Fair(acts[0], oneSided);
      match acts[0] {
        case Request(op) =>
          bs' := RequestBounds(s, op, bs, oneSided);
        case ByHand(m) =>
          if Post(s, m).Ok? {
            AcceptedWithinAllowance(s, m, oneSided);
            bs' := bs + [EntryAllowance(m, oneSided)];
            SumAppend(bs, EntryAllowance(m, oneSided), Itself());
          }
      }
      bs' := RunBounds(Do(s, acts[0]), acts[1..], oneSided, bs');
    }
  }

  lemma {:induction false} CountedWithinBounds(js: seq<Journal>, bs: seq<int>, at: int, store: Option<nat>)
    requires Bounded(js, bs)
    ensures -Sum(bs, Itself()) <= 2 * (Sum(js, Counted(at, store)) - Sum(js, Caught(at, store))) <= Sum(bs, Itself())
  {
    if js != [] {
      assert js[0] in js;
      WholeJournalCounts(js[0], at, store);
      CountedWithinBounds(js[1..], bs[1..], at, store);
    }
  }

  lemma {:induction false} ChartStaysOk(s: State, acts: seq<Act>)
    requires Tidy(s) && ChartOk(s.chart) && forall a :: a in acts ==> a.Request? ==> SaleOk(a.op)
    ensures ChartOk(DoAll(s, acts).chart) && forall a :: a in DoAll(s, acts).chart ==> a in s.chart
    decreases |acts|
  {
    if acts != [] {
      var a, s' := acts[0], Do(s, acts[0]);
      assert a in acts;
      if a.Request? && Step(s, a.op).Ok? {
        if a.op.DropAccount? {
          FilterUnique(s.chart, a.op.account);
          FilterIn(s.chart, Not(a.op.account));
        } else {
          StepMoves(s, a.op);
          MovesKeepTidy(s, s', !a.op.Sell?);
        }
      }
      ChartStaysOk(s', acts[1..]);
    }
  }

  lemma MovesKeepStamps(s: State, s': State, pair: bool)
    requires Moves(s, s', pair) && forall j :: j in s.journals ==> OneStampOrSale(j)
    requires !pair ==> |s'.journals| == |s.journals| + 1 && s'.journals[|s.journals|].kind == SaleRef
    ensures forall j :: j in s'.journals ==> OneStampOrSale(j)
  {
    forall i | 0 <= i < |s'.journals|
      ensures OneStampOrSale(s'.journals[i])
    {
      assert i < |s.journals| ==> s.journals[i] in s.journals;
    }
  }

  /** Only a sale can be split by a cut-off: everything else is stamped once. */
  lemma {:induction false} StampsOverRuns(s: State, acts: seq<Act>)
    requires Tidy(s) && (forall j :: j in s.journals ==> OneStampOrSale(j)) && forall a :: a in acts ==> a.Request? ==> SaleOk(a.op)
    ensures forall j :: j in DoAll(s, acts).journals ==> OneStampOrSale(j)
    decreases |acts|
  {
    if acts != [] {
      var a, s' := acts[0], Do(s, acts[0]);
      assert a in acts;
      if a.Request? && Step(s, a.op).Ok? && !a.op.DropAccount? {
        StepMoves(s, a.op);
        MovesKeepTidy(s, s', !a.op.Sell?);
        MovesKeepStamps(s, s', !a.op.Sell?);
      }
      StampsOverRuns(s', acts[1..]);
    }
  }

  /**
   Over any mixture of requests and hand-posted journals, at every cut-off and
   for every store: the check, with what lies on accounts the report passes over
   and without what split sales show of themselves, is off by no more than the
   allowances of the accepted hand-posted journals, one kobo each and one for
   each line (half for each line when lines have one side), and of the accepted
   sales that are not in whole kobo, half a kobo for each tax line and three
   halves more. With every line on an account of the five types, the check
   itself is, without the split sales.
   */
  lemma CheckOverMixedRuns(s: State, acts: seq<Act>, at: int, store: Option<nat>, oneSided: bool)
    requires Tidy(s) && ChartOk(s.chart) && s.journals == [] && forall a :: a in acts ==> Fair(a, oneSided)
    ensures var t, b := DoAll(s, acts), Allowances(s, acts, oneSided);
            var caught := Sum(t.journals, CaughtSale(at, store));
            && -b <= 2 * (Check(t, at, store) + Sum(t.journals, Stray(t.chart, at, store)) - caught) <= b
            && (AllFiveKinds(s.chart) && LinesInChart(t.chart, t.journals) ==> -b <= 2 * (Check(t, at, store) - caught) <= b)
  {
    var t := DoAll(s, acts);
    var bs := RunBounds(s, acts, oneSided, []);
    forall a | a in acts && a.Request?
      ensures SaleOk(a.op)
    {
      assert Fair(a, oneSided);
    }
    StampsOverRuns(s, acts);
    OnlySalesAreCaught(t.journals, at, store);
    CountedWithinBounds(t.journals, bs, at, store);
    ChartStaysOk(s, acts);
    BalanceSheetIdentity(t, at, store);
    if AllFiveKinds(s.chart) && LinesInChart(t.chart, t.journals) {
      StrayIsOtherNet(t, at, store);
      NoOthers(t, at, store);
    }
  }
}
