/**
 Per-store attribution of receivables. The payment route posts its journal
 without a store, so each store's receivable difference is exactly minus what was
 collected on its rows since each row last moved, and one kobo for each payment
 on them that ended in half a kobo.
 */
module Stores {
  import opened Results
  import opened Sums
  import opened Ledger
  import opened Posting
  import opened SubLedger
  import opened SalePosting
  import opened Runs
  import opened Reach
  import opened Reports

  datatype ArOp =
    | Raise(number: string, amount: real, store: Option<nat>, now: int)
    | Collect(row: nat, amount: real, now: int)
    | Shift(row: nat, store: Option<nat>)

  function ArStep(s: State, op: ArOp, carry: bool): Result<State> {
    match op
    case Raise(number, amount, store, now) => CreateReceivable(s, number, amount, store, now)
    case Collect(row, amount, now) => PayReceivable(s, row, amount, carry, now)
    case Shift(row, store) => MoveReceivable(s, row, store)
  }

  /** The books, and for each row what was collected on it since it was raised or last moved, and its payments that ended in half a kobo. */
  datatype Traced = Traced(s: State, since: map<nat, int>, halves: map<nat, int>)

  function Trace(t: Traced, op: ArOp, carry: bool): Traced {
    match ArStep(t.s, op, carry)
    case Err(_) => t
    case Ok(s') =>
      match op
      case Raise(_, _, _, _) => Traced(s', t.since[t.s.next := 0], t.halves[t.s.next := 0])
      case Collect(row, amount, _) =>
        Traced(s', t.since[row := Noted(t.since, row) + if carry then 0 else Round(amount)],
               t.halves[row := Noted(t.halves, row) + Drift(amount)])
      case Shift(row, _) => Traced(s', t.since[row := 0], t.halves)
  }

  function TraceAll(t: Traced, ops: seq<ArOp>, carry: bool): Traced
    decreases |ops|
  {
    if ops == [] then t else TraceAll(Trace(t, ops[0], carry), ops[1..], carry)
  }

  function Noted(m: map<nat, int>, row: nat): int {
    if row in m then m[row] else 0
  }

  // ---- the figures ----

  function Tagged(a: nat, st: nat): Journal -> int {
    (j: Journal) => if j.store == Some(st) then Sum(j.lines, OnAccount(a)) else 0
  }

  /** receivable_difference of the balance sheet for one store. */
  function StoreGap(s: State, a: nat, st: nat): int {
    Sum(s.ar, StoreBalance(Some(st))) - Sum(s.journals, Tagged(a, st))
  }

  /** The noted amounts of the store's rows. */
  function NotedIn(m: map<nat, int>, st: nat): Row -> int {
    (r: Row) => if r.store == Some(st) then Noted(m, r.id) else 0
  }

  // ---- the journals of one row ----

  predicate Of(j: Journal, row: nat) {
    j.ref == Some(row) && (j.kind == ReceivableRef || j.kind == ArPaymentRef)
  }

  function RowNet(a: nat, row: nat): Journal -> int {
    (j: Journal) => if Of(j, row) then Sum(j.lines, OnAccount(a)) else 0
  }

  function CellValue(a: nat, st: nat, row: nat, j: Journal): int {
    if Of(j, row) && j.store == Some(st) then Sum(j.lines, OnAccount(a)) else 0
  }

  function Cell(a: nat, st: nat, row: nat): Journal -> int {
    (j: Journal) => CellValue(a, st, row, j)
  }

  function Grid(a: nat, st: nat): (Row, Journal) -> int {
    (r: Row, j: Journal) => CellValue(a, st, r.id, j)
  }

  ghost predicate Attributed(js: seq<Journal>, since: map<nat, int>, halves: map<nat, int>, a: nat, r: Row) {
    && Sum(js, RowNet(a, r.id)) == r.balance - Noted(halves, r.id)
    && forall st: nat :: Sum(js, Cell(a, st, r.id))
                         == if r.store == Some(st) then r.balance - Noted(halves, r.id) + Noted(since, r.id) else 0
  }

  ghost predicate Owned(rows: seq<Row>, j: Journal) {
    exists r :: r in rows && Of(j, r.id)
  }

  /** Every row is attributed, and every journal belongs to a row. */
  ghost predicate Linked(rows: seq<Row>, js: seq<Journal>, since: map<nat, int>, halves: map<nat, int>, a: nat) {
    && UniqueRows(rows)
    && (forall r :: r in rows ==> Attributed(js, since, halves, a, r))
    && (forall j :: j in js ==> Owned(rows, j))
  }

  ghost predicate TraceInv(t: Traced, recv: Account) {
    && Inv(t.s)
    && AccountByCode(t.s.chart, RECEIVABLE) == Some(recv)
    && Linked(t.s.ar, t.s.journals, t.since, t.halves, recv.id)
  }

  lemma EachJournalOnce(rows: seq<Row>, a: nat, st: nat, j: Journal)
    requires UniqueRows(rows) && Owned(rows, j)
    ensures Sum(rows, Across(Grid(a, st), j)) == Tagged(a, st)(j)
  {
    var r :| r in rows && Of(j, r.id);
    var i :| 0 <= i < |rows| && rows[i] == r;
    SumOnly(rows, i, Across(Grid(a, st), j));
  }

  /** The invariant read as figures: the difference is what was collected on the store's rows and never credited to it, and their halves. */
  lemma GapIsUncredited(t: Traced, recv: Account, st: nat)
    requires TraceInv(t, recv)
    ensures StoreGap(t.s, recv.id, st) == Sum(t.s.ar, NotedIn(t.halves, st)) - Sum(t.s.ar, NotedIn(t.since, st))
  {
    var g := Grid(recv.id, st);
    SumSwap(t.s.ar, t.s.journals, g);
    forall j | j in t.s.journals
      ensures ColSum(t.s.ar, g)(j) == Tagged(recv.id, st)(j)
    {
      EachJournalOnce(t.s.ar, recv.id, st, j);
    }
    SumSame(t.s.journals, ColSum(t.s.ar, g), Tagged(recv.id, st));
    forall r | r in t.s.ar
      ensures RowSum(t.s.journals, g)(r) + NotedIn(t.halves, st)(r) == StoreBalance(Some(st))(r) + NotedIn(t.since, st)(r)
    {
      SumSame(t.s.journals, Along(g, r), Cell(recv.id, st, r.id));
      assert Attributed(t.s.journals, t.since, t.halves, recv.id, r);
    }
    SumCross(t.s.ar, RowSum(t.s.journals, g), NotedIn(t.halves, st), StoreBalance(Some(st)), NotedIn(t.since, st));
  }

  // ---- appending a journal of one row ----

  lemma AppendCells(js: seq<Journal>, j: Journal, a: nat, row: nat)
    ensures Sum(js + [j], RowNet(a, row)) == Sum(js, RowNet(a, row)) + RowNet(a, row)(j)
    ensures forall st: nat :: Sum(js + [j], Cell(a, st, row)) == Sum(js, Cell(a, st, row)) + CellValue(a, st, row, j)
  {
    SumAppend(js, j, RowNet(a, row));
    forall st: nat
      ensures Sum(js + [j], Cell(a, st, row)) == Sum(js, Cell(a, st, row)) + CellValue(a, st, row, j)
    {
      SumAppend(js, j, Cell(a, st, row));
    }
  }

  lemma NoCells(js: seq<Journal>, a: nat, row: nat)
    requires forall j :: j in js ==> !Of(j, row)
    ensures Sum(js, RowNet(a, row)) == 0
    ensures forall st: nat :: Sum(js, Cell(a, st, row)) == 0
  {
    SumZero(js, RowNet(a, row));
    forall st: nat
      ensures Sum(js, Cell(a, st, row)) == 0
    {
      SumZero(js, Cell(a, st, row));
    }
  }

  /** Rows a new journal does not belong to stay attributed. */
  lemma OtherRowStays(js: seq<Journal>, j: Journal, since: map<nat, int>, since': map<nat, int>,
                      halves: map<nat, int>, halves': map<nat, int>, a: nat, r: Row)
    requires Attributed(js, since, halves, a, r) && !Of(j, r.id)
    requires Noted(since', r.id) == Noted(since, r.id) && Noted(halves', r.id) == Noted(halves, r.id)
    ensures Attributed(js + [j], since', halves', a, r)
  {
    AppendCells(js, j, a, r.id);
  }

  lemma StillOwned(rows: seq<Row>, rows': seq<Row>, js: seq<Journal>)
    requires forall j :: j in js ==> Owned(rows, j)
    requires |rows| <= |rows'| && forall k :: 0 <= k < |rows| ==> rows'[k].id == rows[k].id
    ensures forall j :: j in js ==> Owned(rows', j)
  {
    forall j | j in js
      ensures Owned(rows', j)
    {
      var q :| q in rows && Of(j, q.id);
      var k :| 0 <= k < |rows| && rows[k] == q;
      assert rows'[k] in rows';
    }
  }

  lemma LinkRaised(rows: seq<Row>, js: seq<Journal>, since: map<nat, int>, halves: map<nat, int>, a: nat, row: Row, j: Journal)
    requires Linked(rows, js, since, halves, a) && forall r :: r in rows ==> r.id != row.id
    requires Of(j, row.id) && j.store == row.store && Sum(j.lines, OnAccount(a)) == row.balance
    ensures Linked(rows + [row], js + [j], since[row.id := 0], halves[row.id := 0], a)
  {
    var rows', since', halves' := rows + [row], since[row.id := 0], halves[row.id := 0];
    forall r | r in rows'
      ensures Attributed(js + [j], since', halves', a, r)
    {
      if r in rows {
        OtherRowStays(js, j, since, since', halves, halves', a, r);
      } else {
        assert forall i :: i in js ==> Owned(rows, i);
        AppendCells(js, j, a, row.id);
        NoCells(js, a, row.id);
      }
    }
    StillOwned(rows, rows', js);
    assert row in rows' && Owned(rows', j);
  }

  /** A payment takes `x` less `drift` off the row, and credits `x` to the row's store or to none. */
  lemma LinkCollected(rows: seq<Row>, js: seq<Journal>, since: map<nat, int>, halves: map<nat, int>, a: nat, i: nat, paid: Row,
                      x: int, drift: int, carry: bool, j: Journal)
    requires Linked(rows, js, since, halves, a) && i < |rows|
    requires paid.id == rows[i].id && paid.store == rows[i].store && paid.balance == rows[i].balance - x + drift
    requires Of(j, paid.id) && Sum(j.lines, OnAccount(a)) == -x
    requires j.store == if carry then paid.store else None
    ensures Linked(rows[i := paid], js + [j], since[paid.id := Noted(since, paid.id) + if carry then 0 else x],
                   halves[paid.id := Noted(halves, paid.id) + drift], a)
  {
    var rows' := rows[i := paid];
    var since' := since[paid.id := Noted(since, paid.id) + if carry then 0 else x];
    var halves' := halves[paid.id := Noted(halves, paid.id) + drift];
    forall r | r in rows'
      ensures Attributed(js + [j], since', halves', a, r)
    {
      var k :| 0 <= k < |rows'| && rows'[k] == r;
      if k == i {
        assert rows[i] in rows && Attributed(js, since, halves, a, rows[i]);
        AppendCells(js, j, a, paid.id);
      } else {
        assert rows[k] in rows && rows[k].id != paid.id;
        OtherRowStays(js, j, since, since', halves, halves', a, r);
      }
    }
    StillOwned(rows, rows', js);
    assert rows'[i] in rows' && Owned(rows', j);
  }

  lemma ShiftedCells(js: seq<Journal>, a: nat, id: nat, store: Option<nat>)
    ensures var m := Retag(id, ReceivableRef, ArPaymentRef, store);
            && Sum(Map(js, m), RowNet(a, id)) == Sum(js, RowNet(a, id))
            && forall st: nat :: Sum(Map(js, m), Cell(a, st, id)) == if store == Some(st) then Sum(js, RowNet(a, id)) else 0
  {
    var m := Retag(id, ReceivableRef, ArPaymentRef, store);
    SumMap(js, m, RowNet(a, id), RowNet(a, id));
    forall st: nat
      ensures Sum(Map(js, m), Cell(a, st, id)) == if store == Some(st) then Sum(js, RowNet(a, id)) else 0
    {
      if store == Some(st) {
        SumMap(js, m, Cell(a, st, id), RowNet(a, id));
      } else {
        SumZero(Map(js, m), Cell(a, st, id));
      }
    }
  }

  lemma UnshiftedCells(js: seq<Journal>, a: nat, id: nat, store: Option<nat>, row: nat)
    requires row != id
    ensures var m := Retag(id, ReceivableRef, ArPaymentRef, store);
            && Sum(Map(js, m), RowNet(a, row)) == Sum(js, RowNet(a, row))
            && forall st: nat :: Sum(Map(js, m), Cell(a, st, row)) == Sum(js, Cell(a, st, row))
  {
    var m := Retag(id, ReceivableRef, ArPaymentRef, store);
    SumMap(js, m, RowNet(a, row), RowNet(a, row));
    forall st: nat
      ensures Sum(Map(js, m), Cell(a, st, row)) == Sum(js, Cell(a, st, row))
    {
      SumMap(js, m, Cell(a, st, row), Cell(a, st, row));
    }
  }

  /** A move carries the row's whole balance to the new store: nothing is left uncredited. */
  lemma LinkShifted(rows: seq<Row>, js: seq<Journal>, since: map<nat, int>, halves: map<nat, int>, a: nat, i: nat, store: Option<nat>)
    requires Linked(rows, js, since, halves, a) && i < |rows|
    ensures Linked(rows[i := rows[i].(store := store)], Map(js, Retag(rows[i].id, ReceivableRef, ArPaymentRef, store)),
                   since[rows[i].id := 0], halves, a)
  {
    var id, m := rows[i].id, Retag(rows[i].id, ReceivableRef, ArPaymentRef, store);
    var rows', since' := rows[i := rows[i].(store := store)], since[id := 0];
    forall r | r in rows'
      ensures Attributed(Map(js, m), since', halves, a, r)
    {
      var k :| 0 <= k < |rows'| && rows'[k] == r;
      assert rows[k] in rows && Attributed(js, since, halves, a, rows[k]);
      if k == i {
        ShiftedCells(js, a, id, store);
      } else {
        UnshiftedCells(js, a, id, store, r.id);
      }
    }
    StillOwned(rows, rows', js);
    forall j' | j' in Map(js, m)
      ensures Owned(rows', j')
    {
      var k :| 0 <= k < |js| && Map(js, m)[k] == j';
      assert js[k] in js && Owned(rows', js[k]);
      var r :| r in rows' && Of(js[k], r.id);
      assert Of(j', r.id);
    }
  }

  // ---- the three requests ----

  lemma RaiseKeeps(t: Traced, recv: Account, number: string, amount: real, store: Option<nat>, carry: bool, now: int)
    requires TraceInv(t, recv)
    ensures TraceInv(Trace(t, Raise(number, amount, store, now), carry), recv)
  {
    var s := t.s;
    if CreateReceivable(s, number, amount, store, now).Ok? {
      var recv', rev, h, dd, cd := ReceivableShape(s, number, amount, store, now);
      OpenReceivableMoves(s, number, amount, store, now);
      MovesKeepInv(s, CreateReceivable(s, number, amount, store, now).value, true);
      CodesDiffer();
      SameIdSameAccount(s.chart, recv, rev);
      PairNet(recv, rev, Round(amount), dd, cd, now, recv.id);
      LinkRaised(s.ar, s.journals, t.since, t.halves, recv.id, OpenRow(s.next, number, Round(amount), store, now, ""),
                 NewJournal(s.next + 1, h, Pair(recv, rev, Round(amount), dd, cd, now), now));
    }
  }

  lemma PaidRow(rows: seq<Row>, i: nat, x: real)
    requires RowsSane(rows) && i < |rows| && PayRow(rows[i], x).Ok?
    ensures var r := PayRow(rows[i], x).value;
            r.id == rows[i].id && r.store == rows[i].store && r.balance == rows[i].balance - Round(x) + Drift(x)
  {
    assert rows[i] in rows;
    PayRowExact(rows[i], x);
  }

  function Collected(t: Traced, s': State, id: nat, x: real, carry: bool): Traced {
    Traced(s', t.since[id := Noted(t.since, id) + if carry then 0 else Round(x)], t.halves[id := Noted(t.halves, id) + Drift(x)])
  }

  /** An accepted payment takes its amount off the row, and its journal credits 1100 by as much, but for half a kobo. */
  lemma ReceiptLinks(t: Traced, s': State, recv: Account, cash: Account, i: nat, x: real, carry: bool, j: Journal, desc: string, now: int)
    requires Linked(t.s.ar, t.s.journals, t.since, t.halves, recv.id) && RowsSane(t.s.ar) && cash.id != recv.id
    requires i < |t.s.ar| && PayRow(t.s.ar[i], x).Ok? && s'.ar == t.s.ar[i := PayRow(t.s.ar[i], x).value]
    requires j.lines == Pair(cash, recv, Round(x), desc, desc, now) && s'.journals == t.s.journals + [j]
    requires Of(j, t.s.ar[i].id) && j.store == if carry then t.s.ar[i].store else None
    ensures var t' := Collected(t, s', t.s.ar[i].id, x, carry); Linked(s'.ar, s'.journals, t'.since, t'.halves, recv.id)
  {
    PairNet(cash, recv, Round(x), desc, desc, now, recv.id);
    PaidRow(t.s.ar, i, x);
    LinkCollected(t.s.ar, t.s.journals, t.since, t.halves, recv.id, i, PayRow(t.s.ar[i], x).value, Round(x), Drift(x), carry, j);
  }

  lemma CollectLinks(t: Traced, recv: Account, id: nat, x: real, carry: bool, now: int)
    requires TraceInv(t, recv) && PayReceivable(t.s, id, x, carry, now).Ok?
    ensures var t' := Collected(t, PayReceivable(t.s, id, x, carry, now).value, id, x, carry);
            Linked(t'.s.ar, t'.s.journals, t'.since, t'.halves, recv.id)
  {
    var i, cash, recv', h, desc := ReceiptShape(t.s, id, x, carry, now);
    CodesDiffer();
    SameIdSameAccount(t.s.chart, recv, cash);
    ReceiptLinks(t, PayReceivable(t.s, id, x, carry, now).value, recv, cash, i, x, carry,
                 NewJournal(t.s.next + 1, h, Pair(cash, recv, Round(x), desc, desc, now), now), desc, now);
  }

  lemma CollectKept(t: Traced, recv: Account, id: nat, x: real, carry: bool, now: int)
    requires TraceInv(t, recv) && PayReceivable(t.s, id, x, carry, now).Ok?
    ensures TraceInv(Collected(t, PayReceivable(t.s, id, x, carry, now).value, id, x, carry), recv)
  {
    CollectLinks(t, recv, id, x, carry, now);
    var s' := PayReceivable(t.s, id, x, carry, now).value;
    assert Inv(s') && s'.chart == t.s.chart by {
      CollectKeepsInv(t.s, id, x, carry, now);
    }
  }

  lemma CollectTraced(t: Traced, id: nat, x: real, carry: bool, now: int)
    ensures Trace(t, Collect(id, x, now), carry)
         == match PayReceivable(t.s, id, x, carry, now)
            case Err(_) => t
            case Ok(s') => Collected(t, s', id, x, carry)
  {
  }

  lemma CollectKeeps(t: Traced, recv: Account, id: nat, x: real, carry: bool, now: int)
    requires TraceInv(t, recv)
    ensures TraceInv(Trace(t, Collect(id, x, now), carry), recv)
  {
    var t' := Trace(t, Collect(id, x, now), carry);
    CollectTraced(t, id, x, carry, now);
    assert TraceInv(t', recv) by {
      if PayReceivable(t.s, id, x, carry, now).Ok? {
        CollectKept(t, recv, id, x, carry, now);
      }
    }
  }

  lemma CollectKeepsInv(s: State, id: nat, x: real, carry: bool, now: int)
    requires Inv(s) && PayReceivable(s, id, x, carry, now).Ok?
    ensures var s' := PayReceivable(s, id, x, carry, now).value; Inv(s') && s'.chart == s.chart
  {
    ReceivePaymentMoves(s, id, x, carry, now);
    MovesKeepInv(s, PayReceivable(s, id, x, carry, now).value, true);
  }

  lemma ShiftKeeps(t: Traced, recv: Account, id: nat, store: Option<nat>, carry: bool)
    requires TraceInv(t, recv)
    ensures TraceInv(Trace(t, Shift(id, store), carry), recv)
  {
    if MoveReceivable(t.s, id, store).Ok? {
      MoveArMoves(t.s, id, store);
      MovesKeepInv(t.s, MoveReceivable(t.s, id, store).value, true);
      LinkShifted(t.s.ar, t.s.journals, t.since, t.halves, recv.id, FindRow(t.s.ar, id).value, store);
    }
  }

  lemma TraceKeeps(t: Traced, recv: Account, op: ArOp, carry: bool)
    requires TraceInv(t, recv)
    ensures TraceInv(Trace(t, op, carry), recv)
  {
    match op
    case Raise(number, amount, store, now) => RaiseKeeps(t, recv, number, amount, store, carry, now);
    case Collect(row, amount, now) => CollectKeeps(t, recv, row, amount, carry, now);
    case Shift(row, store) => ShiftKeeps(t, recv, row, store, carry);
  }

  lemma {:induction false} TraceAllKeeps(t: Traced, recv: Account, ops: seq<ArOp>, carry: bool)
    requires TraceInv(t, recv)
    ensures TraceInv(TraceAll(t, ops, carry), recv)
    decreases |ops|
  {
    if ops != [] {
      TraceKeeps(t, recv, ops[0], carry);
      TraceAllKeeps(Trace(t, ops[0], carry), recv, ops[1..], carry);
    }
  }

  function Start(chart: seq<Account>, next: nat): Traced {
    Traced(Empty(chart, [], next), map[], map[])
  }

  /** At any cut-off the report's difference for a store is the one followed here and the store's lines of 1100 it does not count yet. */
  lemma ReportShowsTheStoreGap(s: State, recv: Account, at: int, st: nat)
    requires ChartOk(s.chart) && AccountByCode(s.chart, RECEIVABLE) == Some(recv)
    ensures ArDiff(s, at, Some(st)) == StoreGap(s, recv.id, st) + Later(s, RECEIVABLE, at, Some(st))
    ensures Covered(s.journals, at) ==> ArDiff(s, at, Some(st)) == StoreGap(s, recv.id, st)
  {
    CutOffParts(s, recv.id, at, Some(st), Tagged(recv.id, st));
  }

  /**
   As written: over every run of raising, collecting and moving receivables, for
   payments of any amount, each store's difference is exactly minus what was
   collected on its rows since each was last moved, and one kobo for each payment
   on them that ended in half a kobo; and so the balance sheet shows it, besides
   the lines its cut-off does not count yet.
   */
  lemma DifferenceIsUncreditedPayments(chart: seq<Account>, next: nat, recv: Account, ops: seq<ArOp>, st: nat, at: int)
    requires ChartOk(chart) && AccountByCode(chart, RECEIVABLE) == Some(recv)
    ensures var t := TraceAll(Start(chart, next), ops, false);
            var gap := Sum(t.s.ar, NotedIn(t.halves, st)) - Sum(t.s.ar, NotedIn(t.since, st));
            && StoreGap(t.s, recv.id, st) == gap
            && ArDiff(t.s, at, Some(st)) == gap + Later(t.s, RECEIVABLE, at, Some(st))
            && (Covered(t.s.journals, at) ==> ArDiff(t.s, at, Some(st)) == gap)
  {
    var t := TraceAll(Start(chart, next), ops, false);
    TraceAllKeeps(Start(chart, next), recv, ops, false);
    GapIsUncredited(t, recv, st);
    ReportShowsTheStoreGap(t.s, recv, at, st);
  }

  predicate AllZero(m: map<nat, int>) {
    forall k :: k in m ==> m[k] == 0
  }

  lemma AllZeroSum(rows: seq<Row>, m: map<nat, int>, st: nat)
    requires AllZero(m)
    ensures Sum(rows, NotedIn(m, st)) == 0
  {
    forall r | r in rows
      ensures NotedIn(m, st)(r) == 0
    {
      assert r.id in m ==> m[r.id] == 0;
    }
    SumZero(rows, NotedIn(m, st));
  }

  /** No payment of the run ends in exactly half a kobo. */
  predicate NoHalf(op: ArOp) {
    op.Collect? ==> !Half(op.amount)
  }

  lemma {:induction false} NoHalvesNoted(t: Traced, ops: seq<ArOp>, carry: bool)
    requires AllZero(t.halves) && forall op :: op in ops ==> NoHalf(op)
    ensures AllZero(TraceAll(t, ops, carry).halves)
    decreases |ops|
  {
    if ops != [] {
      assert NoHalf(ops[0]);
      assert AllZero(Trace(t, ops[0], carry).halves);
      NoHalvesNoted(Trace(t, ops[0], carry), ops[1..], carry);
    }
  }

  // ---- when a store's difference is zero ----

  /** Whether a payment on the row was accepted since it was raised or last moved, read off the run. */
  function Owing(t: Traced, ops: seq<ArOp>, row: nat, owing: bool): bool
    decreases |ops|
  {
    if ops == [] then owing
    else
      var now :=
        if ArStep(t.s, ops[0], false).Err? then owing
        else match ops[0]
             case Raise(_, _, _, _) => owing && row != t.s.next
             case Collect(id, _, _) => owing || id == row
             case Shift(id, _) => owing && id != row;
      Owing(Trace(t, ops[0], false), ops[1..], row, now)
  }

  predicate NoneNegative(since: map<nat, int>) {
    forall k :: k in since ==> since[k] >= 0
  }

  lemma AcceptedIsPositive(s: State, row: nat, amount: real, now: int)
    requires PayReceivable(s, row, amount, false, now).Ok?
    ensures Round(amount) > 0
  {
  }

  lemma {:induction false} OwingIsSince(t: Traced, ops: seq<ArOp>, row: nat)
    requires NoneNegative(t.since)
    ensures NoneNegative(TraceAll(t, ops, false).since)
    ensures Owing(t, ops, row, Noted(t.since, row) > 0) <==> Noted(TraceAll(t, ops, false).since, row) > 0
    decreases |ops|
  {
    if ops != [] {
      if ops[0].Collect? && ArStep(t.s, ops[0], false).Ok? {
        AcceptedIsPositive(t.s, ops[0].row, ops[0].amount, ops[0].now);
      }
      OwingIsSince(Trace(t, ops[0], false), ops[1..], row);
    }
  }

  lemma {:induction false} ZeroIffAllZero(rows: seq<Row>, since: map<nat, int>, st: nat)
    requires NoneNegative(since)
    ensures Sum(rows, NotedIn(since, st)) >= 0
    ensures Sum(rows, NotedIn(since, st)) == 0 <==> forall r :: r in rows && r.store == Some(st) ==> Noted(since, r.id) == 0
  {
    if rows != [] {
      ZeroIffAllZero(rows[1..], since, st);
      assert rows[0] in rows;
      assert forall r :: r in rows <==> r == rows[0] || r in rows[1..];
    }
  }

  /**
   When no payment ends in exactly half a kobo, a store's difference is zero exactly
   when no payment was accepted on any of its rows since the row was raised or last moved.
   */
  lemma DifferenceIsZeroIff(chart: seq<Account>, next: nat, recv: Account, ops: seq<ArOp>, st: nat)
    requires ChartOk(chart) && AccountByCode(chart, RECEIVABLE) == Some(recv)
    requires forall op :: op in ops ==> NoHalf(op)
    ensures var t := TraceAll(Start(chart, next), ops, false);
            StoreGap(t.s, recv.id, st) == 0 <==>
              forall r :: r in t.s.ar && r.store == Some(st) ==> !Owing(Start(chart, next), ops, r.id, false)
  {
    var t := TraceAll(Start(chart, next), ops, false);
    DifferenceIsUncreditedPayments(chart, next, recv, ops, st, 0);
    NoHalvesNoted(Start(chart, next), ops, false);
    AllZeroSum(t.s.ar, t.halves, st);
    OwingIsSince(Start(chart, next), ops, 0);
    ZeroIffAllZero(t.s.ar, t.since, st);
    forall r | r in t.s.ar
      ensures Noted(t.since, r.id) == 0 <==> !Owing(Start(chart, next), ops, r.id, false)
    {
      OwingIsSince(Start(chart, next), ops, r.id);
      assert r.id in t.since ==> t.since[r.id] >= 0;
    }
  }

  // ---- 100 raised in a store, 40 collected ----

  function SampleChart(): seq<Account> {
    [Account(1, CASH, Asset), Account(2, RECEIVABLE, Asset), Account(3, REVENUE, Revenue)]
  }

  lemma SampleChartIsOk()
    ensures ChartOk(SampleChart()) && AccountByCode(SampleChart(), CASH) == Some(SampleChart()[0])
    ensures AccountByCode(SampleChart(), RECEIVABLE) == Some(SampleChart()[1])
    ensures AccountByCode(SampleChart(), REVENUE) == Some(SampleChart()[2])
  {
    var chart := SampleChart();
    CodesDiffer();
    assert chart[1..][0] == chart[1] && chart[1..][1..][0] == chart[2];
    assert AccountByCode(chart[1..][1..], REVENUE) == Some(chart[2]);
    assert AccountByCode(chart[1..], REVENUE) == Some(chart[2]);
  }

  function Raised(): State {
    match CreateReceivable(Empty(SampleChart(), [], 9), "INV-1", 100.0, Some(1), 0)
    case Ok(s) => s
    case Err(_) => Empty(SampleChart(), [], 9)
  }

  lemma SampleRaised()
    ensures CreateReceivable(Empty(SampleChart(), [], 9), "INV-1", 100.0, Some(1), 0).Ok?
    ensures Raised().chart == SampleChart() && Raised().ar == [OpenRow(9, "INV-1", 100, Some(1), 0, "")]
  {
    var s, recv, rev := Empty(SampleChart(), [], 9), SampleChart()[1], SampleChart()[2];
    SampleChartIsOk();
    RoundWhole(100);
    PostPair(s.(ar := s.ar + [OpenRow(9, "INV-1", 100, Some(1), 0, "")], next := 10),
             Header("Receivable: " + "INV-1", Some(9), ReceivableRef, Some(1)), recv, rev, 100.0,
             "Receivable: " + "INV-1", "Revenue: " + "INV-1", 0);
  }

  lemma SamplePaid()
    ensures PayReceivable(Raised(), 9, 40.0, false, 1).Ok?
    ensures var ar := PayReceivable(Raised(), 9, 40.0, false, 1).value.ar; |ar| == 1 && ar[0].id == 9 && ar[0].store == Some(1)
  {
    var s, cash, recv := Raised(), SampleChart()[0], SampleChart()[1];
    SampleChartIsOk();
    SampleRaised();
    assert FindRow(s.ar, 9) == Some(0);
    RoundWhole(40);
    RoundWhole(60);
    assert PayRow(s.ar[0], 40.0).Ok?;
    var desc := "AR payment: " + s.ar[0].number;
    PostPair(RecordArPayment(s, 9, 40.0).value, Header(desc, Some(9), ArPaymentRef, None), cash, recv, 40.0, desc, desc, 1);
  }

  function SampleOps(): seq<ArOp> {
    [Raise("INV-1", 100.0, Some(1), 0), Collect(9, 40.0, 1)]
  }

  lemma TraceTwo(t: Traced, a: ArOp, b: ArOp, carry: bool)
    ensures TraceAll(t, [a, b], carry) == Trace(Trace(t, a, carry), b, carry)
  {
    assert [a, b][1..] == [b] && [b][1..] == [];
    assert TraceAll(Trace(t, a, carry), [b], carry) == TraceAll(Trace(Trace(t, a, carry), b, carry), [], carry);
  }

  lemma SampleFirst()
    ensures Trace(Start(SampleChart(), 9), SampleOps()[0], false) == Traced(Raised(), map[9 := 0], map[9 := 0])
  {
    SampleRaised();
  }

  lemma SampleCollected(t: Traced, s': State)
    requires t.since == map[9 := 0] && t.halves == map[9 := 0]
    ensures Collected(t, s', 9, 40.0, false) == Traced(s', map[9 := 40], map[9 := 0])
  {
    RoundWhole(40);
    assert map[9 := 0][9 := 40] == map[9 := 40] && map[9 := 0][9 := 0] == map[9 := 0];
  }

  lemma SampleSecond()
    ensures PayReceivable(Raised(), 9, 40.0, false, 1).Ok?
    ensures Trace(Traced(Raised(), map[9 := 0], map[9 := 0]), SampleOps()[1], false)
         == Traced(PayReceivable(Raised(), 9, 40.0, false, 1).value, map[9 := 40], map[9 := 0])
  {
    var t := Traced(Raised(), map[9 := 0], map[9 := 0]);
    assert PayReceivable(Raised(), 9, 40.0, false, 1).Ok? by {
      SamplePaid();
    }
    CollectTraced(t, 9, 40.0, false, 1);
    SampleCollected(t, PayReceivable(Raised(), 9, 40.0, false, 1).value);
  }

  lemma SampleTrace()
    ensures PayReceivable(Raised(), 9, 40.0, false, 1).Ok?
    ensures TraceAll(Start(SampleChart(), 9), SampleOps(), false)
         == Traced(PayReceivable(Raised(), 9, 40.0, false, 1).value, map[9 := 40], map[9 := 0])
  {
    SampleFirst();
    SampleSecond();
    TraceTwo(Start(SampleChart(), 9), SampleOps()[0], SampleOps()[1], false);
  }

  lemma SampleNoted()
    ensures var t := TraceAll(Start(SampleChart(), 9), SampleOps(), false);
            Sum(t.s.ar, NotedIn(t.since, 1)) == 40 && Sum(t.s.ar, NotedIn(t.halves, 1)) == 0
  {
    SampleTrace();
    SamplePaid();
    var ar := PayReceivable(Raised(), 9, 40.0, false, 1).value.ar;
    SumOnly(ar, 0, NotedIn(map[9 := 40], 1));
    SumOnly(ar, 0, NotedIn(map[9 := 0], 1));
  }

  /** The payment journal carries no store: store 1 ends 40 short of what its rows say. */
  lemma UntaggedPaymentLeavesAGap()
    ensures StoreGap(TraceAll(Start(SampleChart(), 9), SampleOps(), false).s, 2, 1) == -40
  {
    var t := TraceAll(Start(SampleChart(), 9), SampleOps(), false);
    SampleChartIsOk();
    DifferenceIsUncreditedPayments(SampleChart(), 9, SampleChart()[1], SampleOps(), 1, 0);
    SampleNoted();
  }

  lemma {:induction false} CarriedSinceIsZero(t: Traced, ops: seq<ArOp>)
    requires AllZero(t.since)
    ensures AllZero(TraceAll(t, ops, true).since)
    decreases |ops|
  {
    if ops != [] {
      assert AllZero(Trace(t, ops[0], true).since);
      CarriedSinceIsZero(Trace(t, ops[0], true), ops[1..]);
    }
  }

  /** Had the payment journals carried the row's store, every store would reconcile but for its halves, and without any always. */
  lemma CarryingTheStoreReconciles(chart: seq<Account>, next: nat, recv: Account, ops: seq<ArOp>, st: nat)
    requires ChartOk(chart) && AccountByCode(chart, RECEIVABLE) == Some(recv)
    ensures var t := TraceAll(Start(chart, next), ops, true);
            && StoreGap(t.s, recv.id, st) == Sum(t.s.ar, NotedIn(t.halves, st))
            && ((forall op :: op in ops ==> NoHalf(op)) ==> StoreGap(t.s, recv.id, st) == 0)
  {
    var t := TraceAll(Start(chart, next), ops, true);
    TraceAllKeeps(Start(chart, next), recv, ops, true);
    CarriedSinceIsZero(Start(chart, next), ops);
    GapIsUncredited(t, recv, st);
    AllZeroSum(t.s.ar, t.since, st);
    if forall op :: op in ops ==> NoHalf(op) {
      NoHalvesNoted(Start(chart, next), ops, true);
      AllZeroSum(t.s.ar, t.halves, st);
    }
  }

  lemma ShiftReconciles(t: Traced, recv: Account, id: nat, store: Option<nat>, st: nat, r: Row)
    requires TraceInv(t, recv) && MoveReceivable(t.s, id, store).Ok?
    requires r in MoveReceivable(t.s, id, store).value.ar && r.id == id
    ensures Sum(MoveReceivable(t.s, id, store).value.journals, Cell(recv.id, st, id))
         == StoreBalance(Some(st))(r) - NotedIn(t.halves, st)(r)
    ensures AllZero(t.halves) ==> NotedIn(t.halves, st)(r) == 0
  {
    assert AllZero(t.halves) && id in t.halves ==> t.halves[id] == 0;
    var i := FindRow(t.s.ar, id).value;
    LinkShifted(t.s.ar, t.s.journals, t.since, t.halves, recv.id, i, store);
    assert Attributed(MoveReceivable(t.s, id, store).value.journals, t.since[id := 0], t.halves, recv.id, r);
  }

  /**
   A move brings its row's contribution back to its halves: right after it,
   whatever happened before, the journals of the row tagged with each store hold
   the row's balance in that store, less a kobo for each payment on the row that
   ended in half a kobo.
   */
  lemma MoveReconcilesTheRow(chart: seq<Account>, next: nat, recv: Account, ops: seq<ArOp>, t: Traced,
                             id: nat, store: Option<nat>, st: nat, r: Row)
    requires ChartOk(chart) && AccountByCode(chart, RECEIVABLE) == Some(recv) && t == TraceAll(Start(chart, next), ops, false)
    requires MoveReceivable(t.s, id, store).Ok? && r in MoveReceivable(t.s, id, store).value.ar && r.id == id
    ensures var js := MoveReceivable(t.s, id, store).value.journals;
            && Sum(js, Cell(recv.id, st, id)) == StoreBalance(Some(st))(r) - NotedIn(t.halves, st)(r)
            && ((forall op :: op in ops ==> NoHalf(op)) ==> Sum(js, Cell(recv.id, st, id)) == StoreBalance(Some(st))(r))
  {
    TraceAllKeeps(Start(chart, next), recv, ops, false);
    ShiftReconciles(t, recv, id, store, st, r);
    if forall op :: op in ops ==> NoHalf(op) {
      NoHalvesNoted(Start(chart, next), ops, false);
    }
  }
}
