/**
 scripts/backfill_pending_sales.py: book every pending sale that has no journal,
 then give every booked pending sale its receivable row. The script commits
 step by step, may stop between any two commits, and is meant to be re-run.
 */
module Backfill {
  import opened Results
  import opened Sums
  import opened Ledger
  import opened Posting
  import opened SubLedger
  import opened Sales
  import opened SalePosting

  /** The script books a sale as unpaid and without a tax breakdown. */
  predicate ScriptSale(x: Sale) {
    !x.settled && x.taxes == [] && x.payBy == "cash"
  }

  function Books(id: nat): Journal -> bool {
    (j: Journal) => j.kind == SaleRef && j.ref == Some(id)
  }

  function Numbered(number: string): Row -> bool {
    (r: Row) => r.number == number
  }

  function JournalsOf(s: State, x: Sale): seq<Journal> {
    Filter(s.journals, Books(x.id))
  }

  function RowsOf(s: State, x: Sale): seq<Row> {
    Filter(s.ar, Numbered(x.number))
  }

  predicate AlreadyBooked(s: State, id: nat) {
    exists j :: j in s.journals && j.kind == SaleRef && j.ref == Some(id)
  }

  predicate HasRow(s: State, number: string) {
    exists r :: r in s.ar && r.number == number
  }

  function AddRow(s: State, x: Sale, at: int): State {
    s.(ar := s.ar + [OpenRow(s.next, x.number, Round(x.total), x.store, at, "")], next := s.next + 1)
  }

  /** A run with commits to spare, or one that stopped: the process died, or an account was missing. */
  datatype Progress = Reached(s: State, left: nat) | Stopped(s: State)

  function EnsureReceivable(s: State, x: Sale, at: int, commits: nat): Progress {
    if HasRow(s, x.number) then Reached(s, commits)
    else if commits == 0 then Stopped(s)
    else Reached(AddRow(s, x, at), commits - 1)
  }

  function BookOne(s: State, x: Sale, pending: Sale -> bool, clock: nat -> int, commits: nat): Progress {
    if !pending(x) || AlreadyBooked(s, x.id) then Reached(s, commits)
    else match PostSale(s, x, clock)
         case Err(_) => Stopped(s)
         case Ok(s1) => if commits == 0 then Stopped(s) else EnsureReceivable(s1, x, clock(0), commits - 1)
  }

  function BookAll(s: State, todo: seq<Sale>, pending: Sale -> bool, clock: nat -> nat -> int, commits: nat): Progress
    decreases |todo|
  {
    if todo == [] then Reached(s, commits)
    else match BookOne(s, todo[0], pending, clock(todo[0].id), commits)
         case Stopped(s1) => Stopped(s1)
         case Reached(s1, left) => BookAll(s1, todo[1..], pending, clock, left)
  }

  function ReconcileAll(s: State, todo: seq<Sale>, clock: nat -> nat -> int, commits: nat): Progress
    decreases |todo|
  {
    if todo == [] then Reached(s, commits)
    else match EnsureReceivable(s, todo[0], clock(todo[0].id)(0), commits)
         case Stopped(s1) => Stopped(s1)
         case Reached(s1, left) => ReconcileAll(s1, todo[1..], clock, left)
  }

  function Unbooked(s: State, pending: Sale -> bool): Sale -> bool {
    (x: Sale) => pending(x) && !AlreadyBooked(s, x.id)
  }

  function BookedPending(s: State, pending: Sale -> bool): Sale -> bool {
    (x: Sale) => pending(x) && AlreadyBooked(s, x.id)
  }

  /** One run of the script over the tenant's sales, with this many commits before it dies. */
  function Process(s: State, sales: seq<Sale>, pending: Sale -> bool, clock: nat -> nat -> int, commits: nat): Progress {
    match BookAll(s, Filter(sales, Unbooked(s, pending)), pending, clock, commits)
    case Stopped(s1) => Stopped(s1)
    case Reached(s1, left) => ReconcileAll(s1, Filter(sales, BookedPending(s1, pending)), clock, left)
  }

  datatype Attempt = Attempt(clock: nat -> nat -> int, commits: nat)

  /** Any number of runs, each stopping wherever it stops. */
  function Attempts(s: State, sales: seq<Sale>, pending: Sale -> bool, runs: seq<Attempt>): State
    decreases |runs|
  {
    if runs == [] then s
    else Attempts(Process(s, sales, pending, runs[0].clock, runs[0].commits).s, sales, pending, runs[1..])
  }

  // ---- what a sale ends up with ----

  function AtLeastOne(n: nat): nat {
    if n == 0 then 1 else n
  }

  /** The journals and rows a pending sale is heading for, whatever stops on the way. */
  function Target(s: State, x: Sale): (nat, nat) {
    var j, r := |JournalsOf(s, x)|, |RowsOf(s, x)|;
    (AtLeastOne(j), if j == 0 then r + 1 else AtLeastOne(r))
  }

  ghost predicate World(s: State, recv: Account, sales: seq<Sale>) {
    && ChartOk(s.chart)
    && AccountByCode(s.chart, RECEIVABLE) == Some(recv)
    && (forall x :: x in sales ==> ScriptSale(x))
    && (forall x, y :: x in sales && y in sales && (x.id == y.id || x.number == y.number) ==> x == y)
  }

  /** Journals of a sale debit 1100 by its total, and its rows are for that total, paid or owing. */
  ghost predicate Priced(s: State, recv: Account, x: Sale) {
    && (forall j :: j in JournalsOf(s, x) ==> Sum(j.lines, OnAccount(recv.id)) == Round(x.total))
    && (forall r :: r in RowsOf(s, x) ==> r.amount == Round(x.total) && r.paid + r.balance == r.amount)
  }

  ghost predicate Toward(s: State, s': State, recv: Account, pending: Sale -> bool, x: Sale) {
    && |JournalsOf(s, x)| <= |JournalsOf(s', x)|
    && |RowsOf(s, x)| <= |RowsOf(s', x)|
    && (Priced(s, recv, x) ==> Priced(s', recv, x))
    && if pending(x) then Target(s', x) == Target(s, x)
       else JournalsOf(s', x) == JournalsOf(s, x) && RowsOf(s', x) == RowsOf(s, x)
  }

  /** Progress that loses nothing: every sale still heads for the same, and the chart stands. */
  ghost predicate Forward(s: State, s': State, recv: Account, sales: seq<Sale>, pending: Sale -> bool) {
    && s'.chart == s.chart
    && forall x :: x in sales ==> Toward(s, s', recv, pending, x)
  }

  lemma ForwardTwice(a: State, b: State, c: State, recv: Account, sales: seq<Sale>, pending: Sale -> bool)
    requires Forward(a, b, recv, sales, pending) && Forward(b, c, recv, sales, pending)
    ensures Forward(a, c, recv, sales, pending)
  {
    forall x | x in sales
      ensures Toward(a, c, recv, pending, x)
    {
      assert Toward(a, b, recv, pending, x) && Toward(b, c, recv, pending, x);
    }
  }

  lemma Counts(s: State, x: Sale)
    ensures AlreadyBooked(s, x.id) <==> |JournalsOf(s, x)| > 0
    ensures HasRow(s, x.number) <==> |RowsOf(s, x)| > 0
  {
    FilterIn(s.journals, Books(x.id));
    FilterIn(s.ar, Numbered(x.number));
    if |JournalsOf(s, x)| > 0 {
      assert JournalsOf(s, x)[0] in s.journals;
    }
    if |RowsOf(s, x)| > 0 {
      assert RowsOf(s, x)[0] in s.ar;
    }
  }

  lemma FilterAppend<T>(s: seq<T>, x: T, p: T -> bool)
    ensures Filter(s + [x], p) == Filter(s, p) + if p(x) then [x] else []
  {
    FilterConcat(s, [x], p);
    assert [x][1..] == [];
  }

  // ---- the two commits ----

  lemma RowAdded(s: State, s': State, row: Row, recv: Account, pending: Sale -> bool, y: Sale, x: Sale)
    requires s'.journals == s.journals && s'.ar == s.ar + [row] && row.number == y.number && row.amount == Round(y.total) == row.paid + row.balance
    requires pending(y) && AlreadyBooked(s, y.id) && !HasRow(s, y.number) && (x.id == y.id || x.number == y.number ==> x == y)
    ensures Toward(s, s', recv, pending, x)
  {
    FilterAppend(s.ar, row, Numbered(x.number));
    Counts(s, x);
    if x == y {
      assert RowsOf(s', x) == RowsOf(s, x) + [row];
    } else {
      assert RowsOf(s', x) == RowsOf(s, x);
    }
  }

  lemma AddRowForward(s: State, y: Sale, at: int, recv: Account, sales: seq<Sale>, pending: Sale -> bool)
    requires World(s, recv, sales) && y in sales && pending(y) && AlreadyBooked(s, y.id) && !HasRow(s, y.number)
    ensures var s' := AddRow(s, y, at); Forward(s, s', recv, sales, pending) && HasRow(s', y.number)
  {
    var s' := AddRow(s, y, at);
    var row := s'.ar[|s.ar|];
    assert row in s'.ar;
    forall x | x in sales
      ensures Toward(s, s', recv, pending, x)
    {
      RowAdded(s, s', row, recv, pending, y, x);
    }
  }

  /** The booking commit leaves one more journal and one more row for the sale. */
  lemma BookingCommit(s: State, y: Sale, clock: nat -> int, recv: Account) returns (j: Journal, row: Row)
    requires ChartOk(s.chart) && AccountByCode(s.chart, RECEIVABLE) == Some(recv) && ScriptSale(y)
    requires PostSale(s, y, clock).Ok?
    ensures var s' := PostSale(s, y, clock).value;
            s'.journals == s.journals + [j] && s'.ar == s.ar + [row] && s'.chart == s.chart
    ensures Books(y.id)(j) && Sum(j.lines, OnAccount(recv.id)) == Round(y.total)
    ensures row.number == y.number && row.amount == Round(y.total) == row.paid + row.balance
  {
    var plan := Plan(Round, y);
    RoundIsNearest();
    PlanIsShaped(Round, y);
    var lines := SaleLines(s.chart, plan, clock);
    j := NewJournal(s.next, SaleHeader(y), lines, clock(|plan|));
    row := SaleRow(s.next + 1, y, clock(|plan| + 1));
    SaleControl(s.chart, y, plan, clock, recv);
    SaleOpensRow(s.chart, y, plan, clock);
  }

  lemma BothAdded(s: State, s': State, j: Journal, row: Row, recv: Account, pending: Sale -> bool, y: Sale, x: Sale)
    requires s'.journals == s.journals + [j] && s'.ar == s.ar + [row]
    requires Books(y.id)(j) && Sum(j.lines, OnAccount(recv.id)) == Round(y.total)
    requires row.number == y.number && row.amount == Round(y.total) == row.paid + row.balance
    requires pending(y) && !AlreadyBooked(s, y.id) && (x.id == y.id || x.number == y.number ==> x == y)
    ensures Toward(s, s', recv, pending, x)
  {
    FilterAppend(s.journals, j, Books(x.id));
    FilterAppend(s.ar, row, Numbered(x.number));
    Counts(s, x);
    if x == y {
      assert JournalsOf(s', x) == JournalsOf(s, x) + [j] && RowsOf(s', x) == RowsOf(s, x) + [row];
    } else {
      assert JournalsOf(s', x) == JournalsOf(s, x) && RowsOf(s', x) == RowsOf(s, x);
    }
  }

  lemma BookForward(s: State, y: Sale, clock: nat -> int, recv: Account, sales: seq<Sale>, pending: Sale -> bool)
    requires World(s, recv, sales) && y in sales && pending(y) && !AlreadyBooked(s, y.id)
    requires PostSale(s, y, clock).Ok?
    ensures var s' := PostSale(s, y, clock).value;
            Forward(s, s', recv, sales, pending) && AlreadyBooked(s', y.id) && HasRow(s', y.number)
  {
    var s' := PostSale(s, y, clock).value;
    var j, row := BookingCommit(s, y, clock, recv);
    forall x | x in sales
      ensures Toward(s, s', recv, pending, x)
    {
      BothAdded(s, s', j, row, recv, pending, y, x);
    }
    assert s'.journals[|s.journals|] in s'.journals && s'.ar[|s.ar|] in s'.ar;
  }

  lemma ForwardKeeps(s: State, s': State, recv: Account, sales: seq<Sale>, pending: Sale -> bool, x: Sale)
    requires World(s, recv, sales) && Forward(s, s', recv, sales, pending) && x in sales
    ensures World(s', recv, sales)
    ensures AlreadyBooked(s, x.id) ==> AlreadyBooked(s', x.id)
    ensures HasRow(s, x.number) ==> HasRow(s', x.number)
  {
    assert Toward(s, s', recv, pending, x);
    Counts(s, x);
    Counts(s', x);
  }

  // ---- the two passes ----

  lemma BookOneForward(s: State, y: Sale, pending: Sale -> bool, clock: nat -> int, commits: nat, recv: Account, sales: seq<Sale>)
    requires World(s, recv, sales) && y in sales && pending(y)
    ensures var p := BookOne(s, y, pending, clock, commits);
            Forward(s, p.s, recv, sales, pending) && (p.Reached? ==> AlreadyBooked(p.s, y.id))
  {
    if !AlreadyBooked(s, y.id) && PostSale(s, y, clock).Ok? {
      BookForward(s, y, clock, recv, sales, pending);
    }
  }

  lemma EnsureForward(s: State, y: Sale, pending: Sale -> bool, at: int, commits: nat, recv: Account, sales: seq<Sale>)
    requires World(s, recv, sales) && y in sales && pending(y) && AlreadyBooked(s, y.id)
    ensures var p := EnsureReceivable(s, y, at, commits);
            Forward(s, p.s, recv, sales, pending) && (p.Reached? ==> HasRow(p.s, y.number))
  {
    if !HasRow(s, y.number) {
      AddRowForward(s, y, at, recv, sales, pending);
    }
  }

  lemma {:induction false} BookAllForward(s: State, todo: seq<Sale>, pending: Sale -> bool, clock: nat -> nat -> int, commits: nat,
                                          recv: Account, sales: seq<Sale>)
    requires World(s, recv, sales) && forall x :: x in todo ==> x in sales && pending(x)
    ensures var p := BookAll(s, todo, pending, clock, commits);
            && Forward(s, p.s, recv, sales, pending)
            && (p.Reached? ==> forall x :: x in todo ==> AlreadyBooked(p.s, x.id))
    decreases |todo|
  {
    if todo != [] {
      var y := todo[0];
      var p := BookOne(s, y, pending, clock(y.id), commits);
      BookOneForward(s, y, pending, clock(y.id), commits, recv, sales);
      ForwardKeeps(s, p.s, recv, sales, pending, y);
      if p.Reached? {
        BookAllForward(p.s, todo[1..], pending, clock, p.left, recv, sales);
        var q := BookAll(p.s, todo[1..], pending, clock, p.left);
        ForwardTwice(s, p.s, q.s, recv, sales, pending);
        ForwardKeeps(p.s, q.s, recv, sales, pending, y);
      }
    }
  }

  lemma {:induction false} ReconcileForward(s: State, todo: seq<Sale>, pending: Sale -> bool, clock: nat -> nat -> int, commits: nat,
                                            recv: Account, sales: seq<Sale>)
    requires World(s, recv, sales) && forall x :: x in todo ==> x in sales && pending(x) && AlreadyBooked(s, x.id)
    ensures var p := ReconcileAll(s, todo, clock, commits);
            && Forward(s, p.s, recv, sales, pending)
            && (p.Reached? ==> forall x :: x in todo ==> HasRow(p.s, x.number))
    decreases |todo|
  {
    if todo != [] {
      var y := todo[0];
      var p := EnsureReceivable(s, y, clock(y.id)(0), commits);
      EnsureForward(s, y, pending, clock(y.id)(0), commits, recv, sales);
      forall x | x in sales
        ensures World(p.s, recv, sales) && (AlreadyBooked(s, x.id) ==> AlreadyBooked(p.s, x.id))
      {
        ForwardKeeps(s, p.s, recv, sales, pending, x);
      }
      if p.Reached? {
        ReconcileForward(p.s, todo[1..], pending, clock, p.left, recv, sales);
        var q := ReconcileAll(p.s, todo[1..], clock, p.left);
        ForwardTwice(s, p.s, q.s, recv, sales, pending);
        ForwardKeeps(p.s, q.s, recv, sales, pending, y);
      }
    }
  }

  ghost predicate Settled(s: State, sales: seq<Sale>, pending: Sale -> bool) {
    forall x :: x in sales && pending(x) ==> AlreadyBooked(s, x.id) && HasRow(s, x.number)
  }

  /** One run, wherever it stops, loses nothing; one that reaches its end leaves nothing to do. */
  lemma ProcessForward(s: State, sales: seq<Sale>, pending: Sale -> bool, clock: nat -> nat -> int, commits: nat, recv: Account)
    requires World(s, recv, sales)
    ensures var p := Process(s, sales, pending, clock, commits);
            Forward(s, p.s, recv, sales, pending) && World(p.s, recv, sales) && (p.Reached? ==> Settled(p.s, sales, pending))
  {
    FilterIn(sales, Unbooked(s, pending));
    var p := BookAll(s, Filter(sales, Unbooked(s, pending)), pending, clock, commits);
    BookAllForward(s, Filter(sales, Unbooked(s, pending)), pending, clock, commits, recv, sales);
    if p.Reached? {
      FilterIn(sales, BookedPending(p.s, pending));
      ReconcileForward(p.s, Filter(sales, BookedPending(p.s, pending)), pending, clock, p.left, recv, sales);
      var q := ReconcileAll(p.s, Filter(sales, BookedPending(p.s, pending)), clock, p.left);
      ForwardTwice(s, p.s, q.s, recv, sales, pending);
      forall x | x in sales && pending(x)
        ensures AlreadyBooked(p.s, x.id) && (AlreadyBooked(p.s, x.id) ==> AlreadyBooked(q.s, x.id))
      {
        ForwardKeeps(s, p.s, recv, sales, pending, x);
        ForwardKeeps(p.s, q.s, recv, sales, pending, x);
      }
    }
  }

  lemma {:induction false} AttemptsForward(s: State, sales: seq<Sale>, pending: Sale -> bool, runs: seq<Attempt>, recv: Account)
    requires World(s, recv, sales)
    ensures Forward(s, Attempts(s, sales, pending, runs), recv, sales, pending)
    ensures World(Attempts(s, sales, pending, runs), recv, sales)
    decreases |runs|
  {
    if runs != [] {
      var s1 := Process(s, sales, pending, runs[0].clock, runs[0].commits).s;
      ProcessForward(s, sales, pending, runs[0].clock, runs[0].commits, recv);
      AttemptsForward(s1, sales, pending, runs[1..], recv);
      ForwardTwice(s, s1, Attempts(s1, sales, pending, runs[1..]), recv, sales, pending);
    }
  }

  // ---- the theorems ----

  /** The state after any number of stopped runs and one that reaches its end. */
  function AfterAll(s: State, sales: seq<Sale>, pending: Sale -> bool, runs: seq<Attempt>, last: Attempt): Progress {
    Process(Attempts(s, sales, pending, runs), sales, pending, last.clock, last.commits)
  }

  /**
   Crash tolerance. However many runs stopped before, and wherever, one run that
   reaches its end leaves each pending sale with at least one journal, none
   added when it had one, and with the row that goes with it; other sales are
   left alone, and a further run changes nothing however far it gets.
   */
  lemma CrashTolerant(s: State, recv: Account, sales: seq<Sale>, pending: Sale -> bool, runs: seq<Attempt>, last: Attempt)
    requires World(s, recv, sales) && AfterAll(s, sales, pending, runs, last).Reached?
    ensures var s' := AfterAll(s, sales, pending, runs, last).s;
            && (forall x :: x in sales && pending(x) ==> (|JournalsOf(s', x)|, |RowsOf(s', x)|) == Target(s, x))
            && (forall x :: x in sales && !pending(x) ==> JournalsOf(s', x) == JournalsOf(s, x) && RowsOf(s', x) == RowsOf(s, x))
            && forall clock, commits :: Process(s', sales, pending, clock, commits) == Reached(s', commits)
  {
    var mid := Attempts(s, sales, pending, runs);
    var s' := AfterAll(s, sales, pending, runs, last).s;
    AttemptsForward(s, sales, pending, runs, recv);
    ProcessForward(mid, sales, pending, last.clock, last.commits, recv);
    ForwardTwice(s, mid, s', recv, sales, pending);
    forall x | x in sales
      ensures pending(x) ==> (|JournalsOf(s', x)|, |RowsOf(s', x)|) == Target(s, x)
      ensures !pending(x) ==> JournalsOf(s', x) == JournalsOf(s, x) && RowsOf(s', x) == RowsOf(s, x)
    {
      assert Toward(s, s', recv, pending, x);
      Counts(s', x);
    }
    forall clock: nat -> nat -> int, commits: nat
      ensures Process(s', sales, pending, clock, commits) == Reached(s', commits)
    {
      NothingLeft(s', sales, pending, clock, commits);
    }
  }

  lemma {:induction false} AllHaveRows(s: State, todo: seq<Sale>, clock: nat -> nat -> int, commits: nat)
    requires forall x :: x in todo ==> HasRow(s, x.number)
    ensures ReconcileAll(s, todo, clock, commits) == Reached(s, commits)
  {
    if todo != [] {
      AllHaveRows(s, todo[1..], clock, commits);
    }
  }

  lemma NothingLeft(s: State, sales: seq<Sale>, pending: Sale -> bool, clock: nat -> nat -> int, commits: nat)
    requires Settled(s, sales, pending)
    ensures Process(s, sales, pending, clock, commits) == Reached(s, commits)
  {
    FilterNone(sales, Unbooked(s, pending));
    FilterIn(sales, BookedPending(s, pending));
    AllHaveRows(s, Filter(sales, BookedPending(s, pending)), clock, commits);
  }

  /** The sale had at most one of each, and no row without a journal. */
  predicate Clean(s: State, x: Sale) {
    |JournalsOf(s, x)| <= 1 && |RowsOf(s, x)| <= |JournalsOf(s, x)|
  }

  /** Exactly one journal and exactly one row per pending sale: just when the books were clean of rows without journals. */
  lemma ExactlyOneOfEach(s: State, recv: Account, sales: seq<Sale>, pending: Sale -> bool, runs: seq<Attempt>, last: Attempt, x: Sale)
    requires World(s, recv, sales) && AfterAll(s, sales, pending, runs, last).Reached?
    requires x in sales && pending(x)
    ensures var s' := AfterAll(s, sales, pending, runs, last).s;
            |JournalsOf(s', x)| == |RowsOf(s', x)| == 1 <==> Clean(s, x)
  {
    CrashTolerant(s, recv, sales, pending, runs, last);
  }

  function BookedOn(s: State, recv: nat): Sale -> int {
    (x: Sale) => Sum(JournalsOf(s, x), JOn(recv))
  }

  function PaidOrOwing(): Row -> int {
    (r: Row) => r.paid + r.balance
  }

  function OwedFor(s: State): Sale -> int {
    (x: Sale) => Sum(RowsOf(s, x), PaidOrOwing())
  }

  /** What the sales' journals debit to 1100 is what their rows say, in total and sale by sale. */
  lemma JournalsMatchRows(s: State, recv: Account, sales: seq<Sale>, pending: Sale -> bool, runs: seq<Attempt>, last: Attempt)
    requires World(s, recv, sales) && AfterAll(s, sales, pending, runs, last).Reached?
    requires forall x :: x in sales && pending(x) ==> Clean(s, x) && Priced(s, recv, x)
    ensures var s' := AfterAll(s, sales, pending, runs, last).s;
            && (forall x :: x in sales && pending(x) ==> BookedOn(s', recv.id)(x) == Round(x.total) == OwedFor(s')(x))
            && Sum(Filter(sales, pending), BookedOn(s', recv.id)) == Sum(Filter(sales, pending), OwedFor(s'))
  {
    var mid := Attempts(s, sales, pending, runs);
    var s' := AfterAll(s, sales, pending, runs, last).s;
    AttemptsForward(s, sales, pending, runs, recv);
    ProcessForward(mid, sales, pending, last.clock, last.commits, recv);
    ForwardTwice(s, mid, s', recv, sales, pending);
    forall x | x in sales && pending(x)
      ensures BookedOn(s', recv.id)(x) == Round(x.total) == OwedFor(s')(x)
    {
      ExactlyOneOfEach(s, recv, sales, pending, runs, last, x);
      assert Toward(s, s', recv, pending, x);
      SumOnly(JournalsOf(s', x), 0, JOn(recv.id));
      SumOnly(RowsOf(s', x), 0, PaidOrOwing());
      assert JournalsOf(s', x)[0] in JournalsOf(s', x) && RowsOf(s', x)[0] in RowsOf(s', x);
    }
    FilterIn(sales, pending);
    SumSame(Filter(sales, pending), BookedOn(s', recv.id), OwedFor(s'));
  }

  // ---- a run can reach its end ----

  /** Every account a pending sale needs is in the chart. */
  ghost predicate Bookable(s: State, sales: seq<Sale>, pending: Sale -> bool) {
    forall x :: x in sales && pending(x) ==> Resolvable(s.chart, Plan(Round, x))
  }

  lemma {:induction false} BookAllReaches(s: State, todo: seq<Sale>, pending: Sale -> bool, clock: nat -> nat -> int, commits: nat)
    requires Bookable(s, todo, pending) && commits >= 2 * |todo|
    ensures var p := BookAll(s, todo, pending, clock, commits);
            p.Reached? && p.left >= commits - 2 * |todo|
    decreases |todo|
  {
    if todo != [] {
      var p := BookOne(s, todo[0], pending, clock(todo[0].id), commits);
      assert todo[0] in todo;
      assert p.Reached? && p.left >= commits - 2 && p.s.chart == s.chart;
      assert forall x :: x in todo[1..] ==> x in todo;
      BookAllReaches(p.s, todo[1..], pending, clock, p.left);
    }
  }

  lemma {:induction false} ReconcileReaches(s: State, todo: seq<Sale>, clock: nat -> nat -> int, commits: nat)
    requires commits >= |todo|
    ensures ReconcileAll(s, todo, clock, commits).Reached?
    decreases |todo|
  {
    if todo != [] {
      var p := EnsureReceivable(s, todo[0], clock(todo[0].id)(0), commits);
      ReconcileReaches(p.s, todo[1..], clock, p.left);
    }
  }

  /** When no account is missing, a run that is let to make three commits a sale reaches its end. */
  lemma Completes(s: State, sales: seq<Sale>, pending: Sale -> bool, clock: nat -> nat -> int, commits: nat)
    requires Bookable(s, sales, pending) && commits >= 3 * |sales|
    ensures Process(s, sales, pending, clock, commits).Reached?
  {
    var todo := Filter(sales, Unbooked(s, pending));
    FilterIn(sales, Unbooked(s, pending));
    BookAllReaches(s, todo, pending, clock, commits);
    var p := BookAll(s, todo, pending, clock, commits);
    FilterIn(sales, BookedPending(p.s, pending));
    ReconcileReaches(p.s, Filter(sales, BookedPending(p.s, pending)), clock, p.left);
  }

  function SampleSale(): Sale {
    Sale(1, "S-1", 100.0, 0.0, [], [], "cash", None, false)
  }

  /** Two accounts, and a receivable row for the sale that no journal stands behind. */
  function SampleBooks(): State {
    Empty([Account(1, RECEIVABLE, Asset), Account(2, REVENUE, Revenue)], [], 9)
      .(ar := [OpenRow(5, "S-1", 100, None, 0, "")])
  }

  function Always(): Sale -> bool {
    (x: Sale) => true
  }

  lemma SampleIsBookable()
    ensures World(SampleBooks(), Account(1, RECEIVABLE, Asset), [SampleSale()])
    ensures Bookable(SampleBooks(), [SampleSale()], Always())
  {
    var x, chart := SampleSale(), SampleBooks().chart;
    CodesDiffer();
    assert AccountByCode(chart[1..], REVENUE) == Some(chart[1]);
    var plan := Plan(Round, x);
    assert plan == [MoneyEntry(x), RevenueEntry(x, 0.0)];
    forall p | p in plan
      ensures Resolve(chart, plan, p.code).Some?
    {
      assert p == plan[0] || p == plan[1];
    }
  }

  /** One row and no journal beforehand: the booking commit opens a row of its own, and the sale ends with two. */
  lemma RowWithoutJournalDoubles(clock: nat -> nat -> int)
    ensures var p := Process(SampleBooks(), [SampleSale()], Always(), clock, 3);
            && |RowsOf(SampleBooks(), SampleSale())| == 1 && JournalsOf(SampleBooks(), SampleSale()) == []
            && p.Reached? && |RowsOf(p.s, SampleSale())| == 2 && |JournalsOf(p.s, SampleSale())| == 1
  {
    var s, x := SampleBooks(), SampleSale();
    SampleIsBookable();
    Completes(s, [x], Always(), clock, 3);
    CrashTolerant(s, Account(1, RECEIVABLE, Asset), [x], Always(), [], Attempt(clock, 3));
    assert RowsOf(s, x) == s.ar;
  }
}
