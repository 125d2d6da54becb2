/**
 What the backfill of pending sales writes: every row it adds is an unpaid row of
 a pending sale, every journal it adds claims such a sale on 1100, and a run that
 reaches its end moves the receivable difference by the rows it had to supply.
 */
module BackfillRows {
  import opened Results
  import opened Sums
  import opened Ledger
  import opened Posting
  import opened Sales
  import opened SalePosting
  import opened Runs
  import opened Backfill

  /** A row on which nothing has been paid yet and the sale's whole total is owed. */
  ghost predicate Owes(r: Row, x: Sale) {
    && r.number == x.number && r.store == x.store
    && r.amount == r.balance == Round(x.total) && r.paid == 0 && r.status == Pending
  }

  /** A posted journal of the sale that debits 1100 by its total. */
  ghost predicate Claims(j: Journal, x: Sale, recv: Account) {
    && j.kind == SaleRef && j.ref == Some(x.id) && j.store == x.store && j.posted
    && Sum(j.lines, OnAccount(recv.id)) == Round(x.total)
  }

  ghost predicate OwesForSome(r: Row, sales: seq<Sale>, pending: Sale -> bool) {
    exists x :: x in sales && pending(x) && Owes(r, x)
  }

  ghost predicate ClaimsForSome(j: Journal, recv: Account, sales: seq<Sale>, pending: Sale -> bool) {
    exists x :: x in sales && pending(x) && Claims(j, x, recv)
  }

  /** Rows and journals are only added, and only such. */
  ghost predicate Adds(s: State, s': State, recv: Account, sales: seq<Sale>, pending: Sale -> bool) {
    && s.ar <= s'.ar && s.journals <= s'.journals && s'.chart == s.chart && s'.ap == s.ap
    && (forall k :: |s.ar| <= k < |s'.ar| ==> OwesForSome(s'.ar[k], sales, pending))
    && (forall k :: |s.journals| <= k < |s'.journals| ==> ClaimsForSome(s'.journals[k], recv, sales, pending))
  }

  lemma PrefixIsIn<T>(a: seq<T>, b: seq<T>)
    requires a <= b
    ensures forall k :: 0 <= k < |a| ==> b[k] in a
  {
    assert forall k :: 0 <= k < |a| ==> b[k] == a[k];
  }

  lemma AddsTwice(a: State, b: State, c: State, recv: Account, sales: seq<Sale>, pending: Sale -> bool)
    requires Adds(a, b, recv, sales, pending) && Adds(b, c, recv, sales, pending)
    ensures Adds(a, c, recv, sales, pending)
  {
    forall k | |a.ar| <= k < |c.ar|
      ensures OwesForSome(c.ar[k], sales, pending)
    {
      assert k < |b.ar| ==> c.ar[k] == b.ar[k];
    }
    forall k | |a.journals| <= k < |c.journals|
      ensures ClaimsForSome(c.journals[k], recv, sales, pending)
    {
      assert k < |b.journals| ==> c.journals[k] == b.journals[k];
    }
  }

  // ---- the two commits ----

  /** The row the script adds, field by field; it adds none to a sale that has one. */
  lemma RowSupplied(s: State, x: Sale, at: int, commits: nat)
    ensures var p := EnsureReceivable(s, x, at, commits);
            if (exists r :: r in s.ar && r.number == x.number) || commits == 0 then p.s == s
            else
              && p.s == s.(ar := p.s.ar, next := s.next + 1) && |p.s.ar| == |s.ar| + 1 && p.s.ar[..|s.ar|] == s.ar
              && var r := p.s.ar[|s.ar|]; Owes(r, x) && r.id == s.next && r.createdAt == at
  {
  }

  /** The journal and the row of the booking commit. */
  lemma SaleBooked(s: State, x: Sale, clock: nat -> int, recv: Account) returns (j: Journal, row: Row)
    requires ChartOk(s.chart) && AccountByCode(s.chart, RECEIVABLE) == Some(recv) && ScriptSale(x)
    requires PostSale(s, x, clock).Ok?
    ensures var s' := PostSale(s, x, clock).value;
            s'.journals == s.journals + [j] && s'.ar == s.ar + [row] && s'.chart == s.chart && s'.ap == s.ap
    ensures Claims(j, x, recv) && Owes(row, x)
  {
    var plan := Plan(Round, x);
    RoundIsNearest();
    PlanIsShaped(Round, x);
    j := NewJournal(s.next, SaleHeader(x), SaleLines(s.chart, plan, clock), clock(|plan|));
    row := SaleRow(s.next + 1, x, clock(|plan| + 1));
    SaleControl(s.chart, x, plan, clock, recv);
    SaleOpensRow(s.chart, x, plan, clock);
  }

  lemma BookingAdds(s: State, x: Sale, pending: Sale -> bool, clock: nat -> int, recv: Account, sales: seq<Sale>)
    requires World(s, recv, sales) && x in sales && pending(x) && PostSale(s, x, clock).Ok?
    ensures Adds(s, PostSale(s, x, clock).value, recv, sales, pending) && HasRow(PostSale(s, x, clock).value, x.number)
  {
    var s' := PostSale(s, x, clock).value;
    var j, row := SaleBooked(s, x, clock, recv);
    assert s'.ar[|s.ar|] == row && row in s'.ar && s'.journals[|s.journals|] == j;
    assert OwesForSome(row, sales, pending) && ClaimsForSome(j, recv, sales, pending);
  }

  lemma BookOneAdds(s: State, x: Sale, pending: Sale -> bool, clock: nat -> int, commits: nat, recv: Account, sales: seq<Sale>)
    requires World(s, recv, sales) && x in sales
    ensures Adds(s, BookOne(s, x, pending, clock, commits).s, recv, sales, pending)
  {
    if pending(x) && !AlreadyBooked(s, x.id) && PostSale(s, x, clock).Ok? {
      BookingAdds(s, x, pending, clock, recv, sales);
    }
  }

  lemma EnsureAdds(s: State, x: Sale, pending: Sale -> bool, at: int, commits: nat, recv: Account, sales: seq<Sale>)
    requires x in sales && pending(x)
    ensures Adds(s, EnsureReceivable(s, x, at, commits).s, recv, sales, pending)
  {
    RowSupplied(s, x, at, commits);
  }

  // ---- whole runs ----

  lemma {:induction false} BookAllAdds(s: State, todo: seq<Sale>, pending: Sale -> bool, clock: nat -> nat -> int, commits: nat,
                                       recv: Account, sales: seq<Sale>)
    requires World(s, recv, sales) && forall x :: x in todo ==> x in sales
    ensures Adds(s, BookAll(s, todo, pending, clock, commits).s, recv, sales, pending)
    decreases |todo|
  {
    if todo != [] {
      var p := BookOne(s, todo[0], pending, clock(todo[0].id), commits);
      BookOneAdds(s, todo[0], pending, clock(todo[0].id), commits, recv, sales);
      if p.Reached? {
        BookAllAdds(p.s, todo[1..], pending, clock, p.left, recv, sales);
        AddsTwice(s, p.s, BookAll(p.s, todo[1..], pending, clock, p.left).s, recv, sales, pending);
      }
    }
  }

  lemma {:induction false} ReconcileAdds(s: State, todo: seq<Sale>, pending: Sale -> bool, clock: nat -> nat -> int, commits: nat,
                                         recv: Account, sales: seq<Sale>)
    requires forall x :: x in todo ==> x in sales && pending(x)
    ensures Adds(s, ReconcileAll(s, todo, clock, commits).s, recv, sales, pending)
    decreases |todo|
  {
    if todo != [] {
      var p := EnsureReceivable(s, todo[0], clock(todo[0].id)(0), commits);
      EnsureAdds(s, todo[0], pending, clock(todo[0].id)(0), commits, recv, sales);
      if p.Reached? {
        ReconcileAdds(p.s, todo[1..], pending, clock, p.left, recv, sales);
        AddsTwice(s, p.s, ReconcileAll(p.s, todo[1..], clock, p.left).s, recv, sales, pending);
      }
    }
  }

  lemma ProcessAdds(s: State, sales: seq<Sale>, pending: Sale -> bool, clock: nat -> nat -> int, commits: nat, recv: Account)
    requires World(s, recv, sales)
    ensures Adds(s, Process(s, sales, pending, clock, commits).s, recv, sales, pending)
  {
    var todo := Filter(sales, Unbooked(s, pending));
    FilterIn(sales, Unbooked(s, pending));
    var p := BookAll(s, todo, pending, clock, commits);
    BookAllAdds(s, todo, pending, clock, commits, recv, sales);
    if p.Reached? {
      FilterIn(sales, BookedPending(p.s, pending));
      ReconcileAdds(p.s, Filter(sales, BookedPending(p.s, pending)), pending, clock, p.left, recv, sales);
      AddsTwice(s, p.s, Process(s, sales, pending, clock, commits).s, recv, sales, pending);
    }
  }

  lemma {:induction false} AttemptsAdd(s: State, sales: seq<Sale>, pending: Sale -> bool, runs: seq<Attempt>, recv: Account)
    requires World(s, recv, sales)
    ensures Adds(s, Attempts(s, sales, pending, runs), recv, sales, pending)
    decreases |runs|
  {
    if runs != [] {
      var s1 := Process(s, sales, pending, runs[0].clock, runs[0].commits).s;
      ProcessAdds(s, sales, pending, runs[0].clock, runs[0].commits, recv);
      AttemptsAdd(s1, sales, pending, runs[1..], recv);
      AddsTwice(s, s1, Attempts(s1, sales, pending, runs[1..]), recv, sales, pending);
    }
  }

  /**
   However many runs stopped, and wherever: what was there before is still there,
   every row since is a pending sale's and owes its whole total with nothing paid,
   in the sale's store, and every journal since claims a pending sale's total on 1100.
   */
  lemma EveryNewRowOwes(s: State, recv: Account, sales: seq<Sale>, pending: Sale -> bool, runs: seq<Attempt>)
    requires World(s, recv, sales)
    ensures var s' := Attempts(s, sales, pending, runs);
            && s.ar <= s'.ar && s.journals <= s'.journals
            && (forall r :: r in s'.ar && r !in s.ar ==> exists x :: x in sales && pending(x) && Owes(r, x))
            && (forall r, x :: r in s'.ar && r !in s.ar && x in sales && r.number == x.number ==> pending(x) && Owes(r, x))
            && (forall j :: j in s'.journals && j !in s.journals ==> exists x :: x in sales && pending(x) && Claims(j, x, recv))
  {
    var s' := Attempts(s, sales, pending, runs);
    AttemptsAdd(s, sales, pending, runs, recv);
    PrefixIsIn(s.ar, s'.ar);
    PrefixIsIn(s.journals, s'.journals);
    forall r | r in s'.ar && r !in s.ar
      ensures OwesForSome(r, sales, pending)
    {
      var k :| 0 <= k < |s'.ar| && s'.ar[k] == r;
    }
    forall j | j in s'.journals && j !in s.journals
      ensures ClaimsForSome(j, recv, sales, pending)
    {
      var k :| 0 <= k < |s'.journals| && s'.journals[k] == j;
    }
  }

  // ---- the receivable difference ----

  /** The primary key of the sales. */
  ghost predicate OncePerSale(sales: seq<Sale>) {
    forall i, k :: 0 <= i < k < |sales| ==> sales[i].id != sales[k].id && sales[i].number != sales[k].number
  }

  function Supplied(s: State): Sale -> int {
    (x: Sale) => if HasRow(s, x.number) then 0 else Round(x.total)
  }

  lemma RowMovesGap(s: State, s': State, row: Row)
    requires s'.chart == s.chart && s'.journals == s.journals && s'.ar == s.ar + [row]
    ensures ArGap(s') == ArGap(s) + row.balance
  {
    SumAppend(s.ar, row, Balance());
  }

  /** The booking commit adds as much to the rows as to 1100. */
  lemma BookingKeepsGap(s: State, s': State, j: Journal, row: Row, x: Sale, recv: Account)
    requires AccountByCode(s.chart, RECEIVABLE) == Some(recv) && s'.chart == s.chart
    requires s'.journals == s.journals + [j] && s'.ar == s.ar + [row] && Claims(j, x, recv) && Owes(row, x)
    ensures ArGap(s') == ArGap(s)
  {
    SumAppend(s.ar, row, Balance());
    NetOnAppend(s, s', j, RECEIVABLE);
  }

  /** A booked sale of another number changes nothing about who has a row or a journal. */
  ghost predicate SameFor(s: State, s': State, y: Sale) {
    (HasRow(s', y.number) <==> HasRow(s, y.number)) && (AlreadyBooked(s', y.id) <==> AlreadyBooked(s, y.id))
  }

  lemma BookingLeavesOthers(s: State, s': State, j: Journal, row: Row, x: Sale, y: Sale, recv: Account)
    requires s'.journals == s.journals + [j] && s'.ar == s.ar + [row] && Claims(j, x, recv) && Owes(row, x)
    requires y.id != x.id && y.number != x.number
    ensures SameFor(s, s', y)
  {
    assert forall r :: r in s'.ar <==> r in s.ar || r == row;
    assert forall i :: i in s'.journals <==> i in s.journals || i == j;
  }

  lemma BookingCommitGap(s: State, x: Sale, clock: nat -> int, recv: Account, sales: seq<Sale>)
    requires World(s, recv, sales) && x in sales && PostSale(s, x, clock).Ok?
    ensures var s' := PostSale(s, x, clock).value;
            && ArGap(s') == ArGap(s) && HasRow(s', x.number) && AlreadyBooked(s', x.id)
            && forall y :: y in sales && y != x ==> SameFor(s, s', y)
  {
    var s' := PostSale(s, x, clock).value;
    var j, row := SaleBooked(s, x, clock, recv);
    BookingKeepsGap(s, s', j, row, x, recv);
    assert row in s'.ar && j in s'.journals;
    forall y | y in sales && y != x
      ensures SameFor(s, s', y)
    {
      BookingLeavesOthers(s, s', j, row, x, y, recv);
    }
  }

  lemma BookOneGap(s: State, x: Sale, pending: Sale -> bool, clock: nat -> int, commits: nat, recv: Account, sales: seq<Sale>)
    requires World(s, recv, sales) && x in sales
    ensures var p := BookOne(s, x, pending, clock, commits);
            && ArGap(p.s) == ArGap(s)
            && (p.Reached? && pending(x) && !AlreadyBooked(s, x.id) ==> HasRow(p.s, x.number) && AlreadyBooked(p.s, x.id))
            && forall y :: y in sales && y != x ==> SameFor(s, p.s, y)
  {
    if pending(x) && !AlreadyBooked(s, x.id) && PostSale(s, x, clock).Ok? {
      BookingCommitGap(s, x, clock, recv, sales);
    }
  }

  ghost predicate ToBook(s: State, todo: seq<Sale>, sales: seq<Sale>, pending: Sale -> bool) {
    forall x :: x in todo ==> x in sales && pending(x) && !AlreadyBooked(s, x.id)
  }

  ghost predicate Served(s: State, todo: seq<Sale>) {
    forall x :: x in todo ==> HasRow(s, x.number) && AlreadyBooked(s, x.id)
  }

  ghost predicate OthersSame(s: State, s': State, todo: seq<Sale>, sales: seq<Sale>) {
    forall y :: y in sales && y !in todo ==> SameFor(s, s', y)
  }

  lemma RestToBook(s: State, s': State, todo: seq<Sale>, sales: seq<Sale>, pending: Sale -> bool)
    requires OncePerSale(todo) && todo != [] && ToBook(s, todo, sales, pending) && OthersSame(s, s', [todo[0]], sales)
    ensures ToBook(s', todo[1..], sales, pending) && OncePerSale(todo[1..]) && todo[0] !in todo[1..]
  {
    forall y | y in todo[1..]
      ensures y != todo[0] && y in sales && pending(y) && !AlreadyBooked(s', y.id)
    {
      var k :| 1 <= k < |todo| && todo[k] == y;
      assert SameFor(s, s', y);
    }
  }

  lemma ServedTogether(s: State, s1: State, s2: State, todo: seq<Sale>, sales: seq<Sale>)
    requires todo != [] && todo[0] in sales && todo[0] !in todo[1..]
    requires OthersSame(s, s1, [todo[0]], sales) && OthersSame(s1, s2, todo[1..], sales)
    ensures OthersSame(s, s2, todo, sales)
    ensures Served(s1, [todo[0]]) && Served(s2, todo[1..]) ==> Served(s2, todo)
  {
    forall y | y in sales && y !in todo
      ensures SameFor(s, s2, y)
    {
      assert SameFor(s, s1, y) && SameFor(s1, s2, y);
    }
    assert SameFor(s1, s2, todo[0]);
    assert todo[0] in [todo[0]];
  }

  lemma {:induction false} BookAllGap(s: State, todo: seq<Sale>, pending: Sale -> bool, clock: nat -> nat -> int, commits: nat,
                                      recv: Account, sales: seq<Sale>)
    requires World(s, recv, sales) && OncePerSale(todo) && ToBook(s, todo, sales, pending)
    ensures var p := BookAll(s, todo, pending, clock, commits);
            && ArGap(p.s) == ArGap(s) && (p.Reached? ==> Served(p.s, todo) && OthersSame(s, p.s, todo, sales))
    decreases |todo|
  {
    if todo != [] {
      var p := BookOne(s, todo[0], pending, clock(todo[0].id), commits);
      assert todo[0] in todo;
      BookOneGap(s, todo[0], pending, clock(todo[0].id), commits, recv, sales);
      assert OthersSame(s, p.s, [todo[0]], sales);
      BookOneAdds(s, todo[0], pending, clock(todo[0].id), commits, recv, sales);
      if p.Reached? {
        RestToBook(s, p.s, todo, sales, pending);
        BookAllGap(p.s, todo[1..], pending, clock, p.left, recv, sales);
        var q := BookAll(p.s, todo[1..], pending, clock, p.left);
        if q.Reached? {
          ServedTogether(s, p.s, q.s, todo, sales);
        }
      }
    }
  }

  /** A row supplied to one sale leaves the others where they were. */
  lemma OthersStillMissing(s: State, s': State, x: Sale, ys: seq<Sale>)
    requires s.ar <= s'.ar && forall k :: |s.ar| <= k < |s'.ar| ==> s'.ar[k].number == x.number
    requires forall y :: y in ys ==> y.number != x.number
    ensures Sum(ys, Supplied(s')) == Sum(ys, Supplied(s))
  {
    PrefixIsIn(s.ar, s'.ar);
    assert forall k :: 0 <= k < |s.ar| ==> s.ar[k] in s'.ar by {
      assert forall k :: 0 <= k < |s.ar| ==> s'.ar[k] == s.ar[k];
    }
    forall y | y in ys
      ensures Supplied(s')(y) == Supplied(s)(y)
    {
    }
    SumSame(ys, Supplied(s'), Supplied(s));
  }

  /** The reconciling pass supplies the missing rows and nothing else. */
  lemma {:induction false} ReconcileGap(s: State, todo: seq<Sale>, clock: nat -> nat -> int, commits: nat)
    requires OncePerSale(todo) && ReconcileAll(s, todo, clock, commits).Reached?
    ensures ArGap(ReconcileAll(s, todo, clock, commits).s) == ArGap(s) + Sum(todo, Supplied(s))
    decreases |todo|
  {
    if todo != [] {
      var x := todo[0];
      var p := EnsureReceivable(s, x, clock(x.id)(0), commits);
      RowSupplied(s, x, clock(x.id)(0), commits);
      if !HasRow(s, x.number) {
        RowMovesGap(s, p.s, p.s.ar[|s.ar|]);
      }
      assert ArGap(p.s) == ArGap(s) + Supplied(s)(x);
      ReconcileGap(p.s, todo[1..], clock, p.left);
      OthersStillMissing(s, p.s, x, todo[1..]);
    }
  }

  lemma {:induction false} FilterOnce(sales: seq<Sale>, p: Sale -> bool)
    requires OncePerSale(sales)
    ensures OncePerSale(Filter(sales, p))
  {
    if sales != [] {
      FilterOnce(sales[1..], p);
      FilterIn(sales[1..], p);
      var rest := Filter(sales[1..], p);
      forall k | 0 <= k < |rest|
        ensures rest[k].id != sales[0].id && rest[k].number != sales[0].number
      {
        assert rest[k] in sales[1..];
      }
    }
  }

  /** The total of a pending sale that had a sale journal and no row of its number. */
  function Missing(s: State, pending: Sale -> bool): Sale -> int {
    (x: Sale) =>
      if pending(x) && (exists j :: j in s.journals && j.kind == SaleRef && j.ref == Some(x.id))
         && !(exists r :: r in s.ar && r.number == x.number)
      then Round(x.total) else 0
  }

  /**
   A run that reaches its end moves the receivable difference by exactly the
   totals of the pending sales that were booked without a row; bookings move it
   by nothing.
   */
  lemma RunSuppliesTheMissing(s: State, recv: Account, sales: seq<Sale>, pending: Sale -> bool, clock: nat -> nat -> int, commits: nat)
    requires World(s, recv, sales) && OncePerSale(sales) && Process(s, sales, pending, clock, commits).Reached?
    ensures ArGap(Process(s, sales, pending, clock, commits).s) == ArGap(s) + Sum(sales, Missing(s, pending))
  {
    var todo := Filter(sales, Unbooked(s, pending));
    FilterIn(sales, Unbooked(s, pending));
    FilterOnce(sales, Unbooked(s, pending));
    var p := BookAll(s, todo, pending, clock, commits);
    BookAllGap(s, todo, pending, clock, commits, recv, sales);
    var rest := Filter(sales, BookedPending(p.s, pending));
    FilterOnce(sales, BookedPending(p.s, pending));
    ReconcileGap(p.s, rest, clock, p.left);
    forall x | x in sales
      ensures Missing(s, pending)(x) == if BookedPending(p.s, pending)(x) then Supplied(p.s)(x) else 0
    {
      assert x in todo <==> Unbooked(s, pending)(x);
      assert x !in todo ==> SameFor(s, p.s, x);
      MissingIff(s, pending, x);
    }
    FilterSum(sales, BookedPending(p.s, pending), Supplied(p.s), Missing(s, pending));
  }

  lemma MissingIff(s: State, pending: Sale -> bool, x: Sale)
    ensures Missing(s, pending)(x) == if pending(x) && AlreadyBooked(s, x.id) && !HasRow(s, x.number) then Round(x.total) else 0
  {
  }
}
