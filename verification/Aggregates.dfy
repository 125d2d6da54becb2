/**
 The two materialised sales views and the figures of get_store_details: three
 groupings of the same sales that must add up to each other.
 */
module Aggregates {
  import opened Results
  import opened Sums

  datatype SaleState = Completed | Voided | Other(name: string)

  /** A sale as the views read it; times count seconds. */
  datatype Sold = Sold(
    tenant: nat, store: Option<nat>, at: int, status: SaleState, total: int, discount: int, tax: int)

  /** The columns the two views share. */
  datatype Column = TotalSales | Revenue | Discounts | Taxes | VoidCount | VoidAmount

  datatype Agg = Agg(sales: int, revenue: int, discounts: int, taxes: int, voids: int, voided: int)

  datatype DayKey = DayKey(tenant: nat, day: int)

  datatype StoreKey = StoreKey(tenant: nat, store: nat, day: int)

  function Day(at: int): int {
    at / 86400
  }

  function At(a: Agg, c: Column): int {
    match c
    case TotalSales => a.sales
    case Revenue => a.revenue
    case Discounts => a.discounts
    case Taxes => a.taxes
    case VoidCount => a.voids
    case VoidAmount => a.voided
  }

  const NOTHING := Agg(0, 0, 0, 0, 0, 0)

  /** One more sale in its group: each column counts the sales its FILTER lets through. */
  function Add(a: Agg, s: Sold): Agg {
    if s.status.Completed? then
      a.(sales := a.sales + 1, revenue := a.revenue + s.total, discounts := a.discounts + s.discount, taxes := a.taxes + s.tax)
    else if s.status.Voided? then a.(voids := a.voids + 1, voided := a.voided + s.total)
    else a
  }

  function Cell<K>(view: map<K, Agg>, k: K, c: Column): int {
    if k in view then At(view[k], c) else 0
  }

  function Extend<K>(view: map<K, Agg>, k: K, s: Sold): map<K, Agg> {
    view[k := Add(if k in view then view[k] else NOTHING, s)]
  }

  /** GROUP BY: a row for each key that some sale has; a sale without a key is joined away. */
  function Grouped<K>(sales: seq<Sold>, key: Sold -> Option<K>): map<K, Agg> {
    if sales == [] then map[]
    else
      var n := |sales| - 1;
      match key(sales[n])
      case None => Grouped(sales[..n], key)
      case Some(k) => Extend(Grouped(sales[..n], key), k, sales[n])
  }

  predicate Finished(s: Sold) {
    s.status.Completed? || s.status.Voided?
  }

  function ByDay(): Sold -> Option<DayKey> {
    (s: Sold) => if Finished(s) then Some(DayKey(s.tenant, Day(s.at))) else None
  }

  function ByStore(stores: seq<nat>): Sold -> Option<StoreKey> {
    (s: Sold) =>
      if Finished(s) && s.store.Some? && s.store.value in stores then Some(StoreKey(s.tenant, s.store.value, Day(s.at))) else None
  }

  function DailySales(sales: seq<Sold>): map<DayKey, Agg> {
    Grouped(sales, ByDay())
  }

  function StoreSales(sales: seq<Sold>, stores: seq<nat>): map<StoreKey, Agg> {
    Grouped(sales, ByStore(stores))
  }

  // ---- a cell is a filtered sum ----

  /** What one sale adds to a column: completed sales count in the first four, voided ones in the last two. */
  function Share(s: Sold, c: Column): int {
    var counts := if c.VoidCount? || c.VoidAmount? then s.status.Voided? else s.status.Completed?;
    if !counts then 0
    else match c
         case TotalSales => 1
         case Revenue => s.total
         case Discounts => s.discount
         case Taxes => s.tax
         case VoidCount => 1
         case VoidAmount => s.total
  }

  function Under<K(==)>(key: Sold -> Option<K>, k: K, c: Column): Sold -> int {
    (s: Sold) => if key(s) == Some(k) then Share(s, c) else 0
  }

  lemma {:induction false} CellIsSum<K>(sales: seq<Sold>, key: Sold -> Option<K>, k: K, c: Column)
    ensures Cell(Grouped(sales, key), k, c) == Sum(sales, Under(key, k, c))
  {
    if sales != [] {
      var n := |sales| - 1;
      CellIsSum(sales[..n], key, k, c);
      assert sales == sales[..n] + [sales[n]];
      SumAppend(sales[..n], sales[n], Under(key, k, c));
    }
  }

  lemma {:induction false} RowExists<K>(sales: seq<Sold>, key: Sold -> Option<K>, k: K)
    ensures k in Grouped(sales, key) <==> exists s :: s in sales && key(s) == Some(k)
  {
    if sales != [] {
      var n := |sales| - 1;
      RowExists(sales[..n], key, k);
      assert sales == sales[..n] + [sales[n]];
      assert forall s :: s in sales <==> s in sales[..n] || s == sales[n];
    }
  }

  /** The tenant's sales of one day of 86400 seconds, in one store or in all. */
  predicate SoldOn(s: Sold, tenant: nat, day: int, store: Option<nat>) {
    s.tenant == tenant && day * 86400 <= s.at < (day + 1) * 86400 && (store.None? || s.store == store)
  }

  function ShareOn(tenant: nat, day: int, store: Option<nat>, c: Column): Sold -> int {
    (s: Sold) => if SoldOn(s, tenant, day, store) then Share(s, c) else 0
  }

  lemma DayBounds(at: int, day: int)
    ensures Day(at) == day <==> day * 86400 <= at < (day + 1) * 86400
  {
  }

  /** Each figure of the daily view is that figure over the tenant's sales of the day. */
  lemma DailyFigure(sales: seq<Sold>, tenant: nat, day: int, c: Column)
    ensures Cell(DailySales(sales), DayKey(tenant, day), c) == Sum(sales, ShareOn(tenant, day, None, c))
  {
    CellIsSum(sales, ByDay(), DayKey(tenant, day), c);
    forall s | s in sales
      ensures Under(ByDay(), DayKey(tenant, day), c)(s) == ShareOn(tenant, day, None, c)(s)
    {
      DayBounds(s.at, day);
    }
    SumSame(sales, Under(ByDay(), DayKey(tenant, day), c), ShareOn(tenant, day, None, c));
  }

  /** And of the store view, over the sales of that store. */
  lemma StoreFigure(sales: seq<Sold>, stores: seq<nat>, tenant: nat, st: nat, day: int, c: Column)
    requires st in stores
    ensures Cell(StoreSales(sales, stores), StoreKey(tenant, st, day), c) == Sum(sales, ShareOn(tenant, day, Some(st), c))
  {
    CellIsSum(sales, ByStore(stores), StoreKey(tenant, st, day), c);
    forall s | s in sales
      ensures Under(ByStore(stores), StoreKey(tenant, st, day), c)(s) == ShareOn(tenant, day, Some(st), c)(s)
    {
      DayBounds(s.at, day);
    }
    SumSame(sales, Under(ByStore(stores), StoreKey(tenant, st, day), c), ShareOn(tenant, day, Some(st), c));
  }

  predicate Counts(s: Sold) {
    s.status == Completed || s.status == Voided
  }

  /** The daily view has a row exactly for a tenant's day with a completed or voided sale. */
  lemma DailyRow(sales: seq<Sold>, tenant: nat, day: int)
    ensures DayKey(tenant, day) in DailySales(sales) <==> exists s :: s in sales && Counts(s) && SoldOn(s, tenant, day, None)
  {
    RowExists(sales, ByDay(), DayKey(tenant, day));
    forall s: Sold
      ensures ByDay()(s) == Some(DayKey(tenant, day)) <==> Counts(s) && SoldOn(s, tenant, day, None)
    {
      DayBounds(s.at, day);
    }
  }

  /** And the store view exactly for such a day of a store that exists. */
  lemma StoreRow(sales: seq<Sold>, stores: seq<nat>, tenant: nat, st: nat, day: int)
    ensures StoreKey(tenant, st, day) in StoreSales(sales, stores) <==>
      st in stores && exists s :: s in sales && Counts(s) && SoldOn(s, tenant, day, Some(st))
  {
    RowExists(sales, ByStore(stores), StoreKey(tenant, st, day));
    forall s: Sold
      ensures ByStore(stores)(s) == Some(StoreKey(tenant, st, day)) <==> st in stores && Counts(s) && SoldOn(s, tenant, day, Some(st))
    {
      DayBounds(s.at, day);
    }
  }

  // ---- stores add up to the day ----

  ghost predicate Distinct(xs: seq<nat>) {
    forall i, j :: 0 <= i < j < |xs| ==> xs[i] != xs[j]
  }

  function StoreCell(sales: seq<Sold>, stores: seq<nat>, tenant: nat, day: int, c: Column): nat -> int {
    (st: nat) => Cell(StoreSales(sales, stores), StoreKey(tenant, st, day), c)
  }

  /** Sales of the day that no existing store accounts for. */
  function Orphan(stores: seq<nat>, tenant: nat, day: int, c: Column): Sold -> int {
    (s: Sold) =>
      if s.tenant == tenant && Day(s.at) == day && (s.store.None? || s.store.value !in stores) then Share(s, c) else 0
  }

  function ShareValue(stores: seq<nat>, tenant: nat, day: int, c: Column, st: nat, s: Sold): int {
    if ByStore(stores)(s) == Some(StoreKey(tenant, st, day)) then Share(s, c) else 0
  }

  function Shares(stores: seq<nat>, tenant: nat, day: int, c: Column): (nat, Sold) -> int {
    (st: nat, s: Sold) => ShareValue(stores, tenant, day, c, st, s)
  }

  /** A finished sale of a listed store falls under exactly one store of its day. */
  lemma OneStore(stores: seq<nat>, tenant: nat, day: int, c: Column, s: Sold)
    requires Distinct(stores)
    ensures Under(ByDay(), DayKey(tenant, day), c)(s)
         == Sum(stores, Across(Shares(stores, tenant, day, c), s)) + Orphan(stores, tenant, day, c)(s)
  {
    var f := Across(Shares(stores, tenant, day, c), s);
    if s.store.Some? && s.store.value in stores {
      var i :| 0 <= i < |stores| && stores[i] == s.store.value;
      SumOnly(stores, i, f);
    } else {
      SumZero(stores, f);
    }
  }

  /** Every column, tenant and day: the stores' rows plus the orphan sales are the day's row. */
  lemma StoresAndOrphansMakeTheDay(sales: seq<Sold>, stores: seq<nat>, tenant: nat, day: int, c: Column)
    requires Distinct(stores)
    ensures Cell(DailySales(sales), DayKey(tenant, day), c)
         == Sum(stores, StoreCell(sales, stores, tenant, day, c)) + Sum(sales, Orphan(stores, tenant, day, c))
  {
    var g := Shares(stores, tenant, day, c);
    CellIsSum(sales, ByDay(), DayKey(tenant, day), c);
    forall st | st in stores
      ensures StoreCell(sales, stores, tenant, day, c)(st) == RowSum(sales, g)(st)
    {
      CellIsSum(sales, ByStore(stores), StoreKey(tenant, st, day), c);
      SumSame(sales, Under(ByStore(stores), StoreKey(tenant, st, day), c), Along(g, st));
    }
    SumSame(stores, StoreCell(sales, stores, tenant, day, c), RowSum(sales, g));
    SumSwap(stores, sales, g);
    forall s | s in sales
      ensures Under(ByDay(), DayKey(tenant, day), c)(s) == ColSum(stores, g)(s) + Orphan(stores, tenant, day, c)(s)
    {
      OneStore(stores, tenant, day, c, s);
    }
    SumPlus(sales, Under(ByDay(), DayKey(tenant, day), c), ColSum(stores, g), Orphan(stores, tenant, day, c));
  }

  predicate InKnownStore(stores: seq<nat>, s: Sold) {
    s.store.Some? && s.store.value in stores
  }

  /** With every sale in an existing store, summing the store view over the stores gives the daily view. */
  lemma StoresMakeTheDay(sales: seq<Sold>, stores: seq<nat>, tenant: nat, day: int, c: Column)
    requires Distinct(stores) && forall s :: s in sales ==> InKnownStore(stores, s)
    ensures Cell(DailySales(sales), DayKey(tenant, day), c) == Sum(stores, StoreCell(sales, stores, tenant, day, c))
    ensures DayKey(tenant, day) in DailySales(sales) <==> exists st :: st in stores && StoreKey(tenant, st, day) in StoreSales(sales, stores)
  {
    StoresAndOrphansMakeTheDay(sales, stores, tenant, day, c);
    SumZero(sales, Orphan(stores, tenant, day, c));
    RowExists(sales, ByDay(), DayKey(tenant, day));
    forall st: nat
      ensures StoreKey(tenant, st, day) in StoreSales(sales, stores) <==>
        exists s :: s in sales && ByStore(stores)(s) == Some(StoreKey(tenant, st, day))
    {
      RowExists(sales, ByStore(stores), StoreKey(tenant, st, day));
    }
    if s :| s in sales && ByDay()(s) == Some(DayKey(tenant, day)) {
      assert ByStore(stores)(s) == Some(StoreKey(tenant, s.store.value, day));
    }
    if st :| st in stores && StoreKey(tenant, st, day) in StoreSales(sales, stores) {
      var s :| s in sales && ByStore(stores)(s) == Some(StoreKey(tenant, st, day));
      assert ByDay()(s) == Some(DayKey(tenant, day));
    }
  }

  // ---- days add up to the store's details ----

  predicate InRange(day: int, from: Option<int>, to: Option<int>) {
    (from.None? || from.value <= day) && (to.None? || day <= to.value)
  }

  /** One of the two figures get_store_details reads straight from the sales. */
  function Direct(tenant: nat, st: nat, from: Option<int>, to: Option<int>, c: Column): Sold -> int {
    (s: Sold) =>
      if s.store == Some(st) && s.tenant == tenant && s.status.Completed? && InRange(Day(s.at), from, to)
      then (if c.Revenue? then s.total else 1) else 0
  }

  /** The store's rows of the view over the days lo .. hi - 1. */
  function DaysTotal(view: map<StoreKey, Agg>, tenant: nat, st: nat, lo: int, hi: int, c: Column): int
    decreases hi - lo
  {
    if hi <= lo then 0 else DaysTotal(view, tenant, st, lo, hi - 1, c) + Cell(view, StoreKey(tenant, st, hi - 1), c)
  }

  function Within(tenant: nat, st: nat, lo: int, hi: int, c: Column): Sold -> int {
    (s: Sold) => if s.store == Some(st) && s.tenant == tenant && lo <= Day(s.at) < hi then Share(s, c) else 0
  }

  lemma {:induction false} DaysAreWithin(sales: seq<Sold>, stores: seq<nat>, tenant: nat, st: nat, lo: int, hi: int, c: Column)
    requires st in stores
    ensures DaysTotal(StoreSales(sales, stores), tenant, st, lo, hi, c) == Sum(sales, Within(tenant, st, lo, hi, c))
    decreases hi - lo
  {
    if hi <= lo {
      SumZero(sales, Within(tenant, st, lo, hi, c));
    } else {
      DaysAreWithin(sales, stores, tenant, st, lo, hi - 1, c);
      CellIsSum(sales, ByStore(stores), StoreKey(tenant, st, hi - 1), c);
      SumPlus(sales, Within(tenant, st, lo, hi, c), Within(tenant, st, lo, hi - 1, c),
              Under(ByStore(stores), StoreKey(tenant, st, hi - 1), c));
    }
  }

  /** Days lo .. hi - 1 are those the requested range can hold: its own ends, or beyond every sale where an end is open. */
  predicate Covering(sales: seq<Sold>, from: Option<int>, to: Option<int>, lo: int, hi: int) {
    && (match from case Some(f) => lo == f case None => forall s :: s in sales ==> lo <= Day(s.at))
    && (match to case Some(t) => hi == t + 1 case None => forall s :: s in sales ==> Day(s.at) < hi)
  }

  /** Summing a store's days in a range gives the count and the revenue that get_store_details reads directly. */
  lemma DaysMakeTheDetails(sales: seq<Sold>, stores: seq<nat>, tenant: nat, st: nat, from: Option<int>, to: Option<int>, lo: int, hi: int, c: Column)
    requires st in stores && (c.TotalSales? || c.Revenue?) && Covering(sales, from, to, lo, hi)
    ensures DaysTotal(StoreSales(sales, stores), tenant, st, lo, hi, c) == Sum(sales, Direct(tenant, st, from, to, c))
  {
    DaysAreWithin(sales, stores, tenant, st, lo, hi, c);
    SumSame(sales, Within(tenant, st, lo, hi, c), Direct(tenant, st, from, to, c));
  }
}
