/**
 The opening-journal backfill of migration b9c8d7e6f5a4: a header for every
 receivable and payable without a creation journal, then the lines of every
 opening journal. The header insert is guarded, the line inserts are not.
 */
module Opening {
  import opened Results
  import opened Sums
  import opened Ledger
  import opened SubLedger
  import opened SalePosting
  import opened Runs

  const MARK := "(opening entry)"

  predicate EndsWith(text: string, tail: string) {
    |tail| <= |text| && text[|text| - |tail|..] == tail
  }

  /** What the two halves of the migration differ in; each line insert yields no line when its account is missing. */
  datatype Side = Side(
    kind: RefKind, title: string, headers: bool,
    first: (Row, Option<int>) -> seq<Line>, second: (Row, Option<int>) -> seq<Line>)

  predicate Creates(j: Journal, kind: RefKind, id: nat) {
    j.kind == kind && j.ref == Some(id)
  }

  predicate Opened(js: seq<Journal>, kind: RefKind, id: nat) {
    exists j :: j in js && Creates(j, kind, id)
  }

  function OpeningHeader(side: Side, r: Row, id: nat): Journal {
    Journal(id, side.title + r.number + " " + MARK, Some(r.id), side.kind, true, Some(r.createdAt), r.store, [])
  }

  /** One header per row without a creation journal among `js`. */
  function Headers(js: seq<Journal>, rows: seq<Row>, side: Side, next: nat): seq<Journal> {
    if rows == [] then []
    else if Opened(js, side.kind, rows[0].id) then Headers(js, rows[1..], side, next)
    else [OpeningHeader(side, rows[0], next)] + Headers(js, rows[1..], side, next + 1)
  }

  /** The row an opening journal joins, by kind, reference and the end of its description. */
  function Joined(rows: seq<Row>, kind: RefKind, j: Journal): Option<Row> {
    if j.kind == kind && j.ref.Some? && EndsWith(j.desc, MARK) then
      (match FindRow(rows, j.ref.value) case None => None case Some(i) => Some(rows[i]))
    else None
  }

  function Insert(rows: seq<Row>, kind: RefKind, mk: (Row, Option<int>) -> seq<Line>): Journal -> Journal {
    (j: Journal) =>
      match Joined(rows, kind, j)
      case None => j
      case Some(r) => j.(lines := j.lines + mk(r, j.at))
  }

  function OpenSide(s: State, rows: seq<Row>, side: Side): State {
    var hs := if side.headers then Headers(s.journals, rows, side, s.next) else [];
    s.(journals := Map(Map(s.journals + hs, Insert(rows, side.kind, side.first)), Insert(rows, side.kind, side.second)),
       next := s.next + |hs|)
  }

  function DebitLine(a: Option<Account>, title: string): (Row, Option<int>) -> seq<Line> {
    (r: Row, at: Option<int>) =>
      match a case None => [] case Some(x) => [Line(x.id, x.code, r.amount, 0, title + r.number, true, at)]
  }

  function CreditLine(a: Option<Account>, title: string): (Row, Option<int>) -> seq<Line> {
    (r: Row, at: Option<int>) =>
      match a case None => [] case Some(x) => [Line(x.id, x.code, 0, r.amount, title + r.number, true, at)]
  }

  function ExpenseLine(chart: seq<Account>): (Row, Option<int>) -> seq<Line> {
    (r: Row, at: Option<int>) =>
      match AccountByCode(chart, ExpenseCode(r.category))
      case None => []
      case Some(x) => [Line(x.id, x.code, r.amount, 0, r.number, true, at)]
  }

  function ArSide(chart: seq<Account>): Side {
    var recv, rev := AccountByCode(chart, RECEIVABLE), AccountByCode(chart, REVENUE);
    Side(ReceivableRef, "Receivable: ", recv.Some? && rev.Some?, DebitLine(recv, "Receivable: "), CreditLine(rev, "Revenue: "))
  }

  function ApSide(chart: seq<Account>): Side {
    var pay := AccountByCode(chart, PAYABLE);
    Side(PayableRef, "Payable: ", pay.Some?, CreditLine(pay, ""), ExpenseLine(chart))
  }

  /** One run of the migration's fourth part. */
  function Migrate(s: State): State {
    var s1 := OpenSide(s, s.ar, ArSide(s.chart));
    OpenSide(s1, s1.ap, ApSide(s1.chart))
  }

  // ---- the headers ----

  lemma EndsWithMark(a: string, b: string)
    ensures EndsWith(a + b + " " + MARK, MARK)
  {
    var t := a + b + " " + MARK;
    assert t[|t| - |MARK|..] == MARK;
  }

  lemma {:induction false} HeadersAre(js: seq<Journal>, rows: seq<Row>, side: Side, next: nat)
    ensures forall h :: h in Headers(js, rows, side, next) ==>
      exists r :: r in rows && !Opened(js, side.kind, r.id) && h == OpeningHeader(side, r, h.id) && next <= h.id < next + |Headers(js, rows, side, next)|
  {
    if rows != [] {
      var had := Opened(js, side.kind, rows[0].id);
      HeadersAre(js, rows[1..], side, if had then next else next + 1);
    }
  }

  lemma {:induction false} HeadersExtra(js: seq<Journal>, all: seq<Row>, rows: seq<Row>, side: Side, next: nat, a: nat)
    requires UniqueRows(all) && forall r :: r in rows ==> r in all
    ensures Sum(Headers(js, rows, side, next), Extra(all, side, a)) == Sum(rows, Opens(js, side, a))
  {
    if rows != [] {
      var r := rows[0];
      assert r in rows;
      if Opened(js, side.kind, r.id) {
        HeadersExtra(js, all, rows[1..], side, next, a);
      } else {
        HeadersExtra(js, all, rows[1..], side, next + 1, a);
        JoinedHeader(all, side, r, next);
        var h, rest := OpeningHeader(side, r, next), Headers(js, rows[1..], side, next + 1);
        assert ([h] + rest)[1..] == rest;
      }
    }
  }

  lemma JoinedHeader(all: seq<Row>, side: Side, r: Row, id: nat)
    requires UniqueRows(all) && r in all
    ensures Joined(all, side.kind, OpeningHeader(side, r, id)) == Some(r)
  {
    EndsWithMark(side.title, r.number);
    assert OpeningHeader(side, r, id).desc == side.title + r.number + " " + MARK;
  }

  // ---- the lines ----

  function LinesFor(side: Side, r: Row, at: Option<int>): seq<Line> {
    side.first(r, at) + side.second(r, at)
  }

  function Filled(rows: seq<Row>, side: Side): Journal -> Journal {
    (j: Journal) =>
      match Joined(rows, side.kind, j)
      case None => j
      case Some(r) => j.(lines := j.lines + LinesFor(side, r, j.at))
  }

  function Extra(rows: seq<Row>, side: Side, a: nat): Journal -> int {
    (j: Journal) =>
      match Joined(rows, side.kind, j)
      case None => 0
      case Some(r) => Sum(LinesFor(side, r, j.at), OnAccount(a))
  }

  function Opens(js: seq<Journal>, side: Side, a: nat): Row -> int {
    (r: Row) => if Opened(js, side.kind, r.id) then 0 else Sum(LinesFor(side, r, Some(r.createdAt)), OnAccount(a))
  }

  function NewHeaders(s: State, rows: seq<Row>, side: Side): seq<Journal> {
    if side.headers then Headers(s.journals, rows, side, s.next) else []
  }

  lemma {:induction false} MapTwice<T, U, V>(s: seq<T>, f: T -> U, g: U -> V, h: T -> V)
    requires forall x :: x in s ==> h(x) == g(f(x))
    ensures Map(Map(s, f), g) == Map(s, h)
  {
    if s != [] {
      MapTwice(s[1..], f, g, h);
    }
  }

  lemma BothInserts(rows: seq<Row>, side: Side, j: Journal)
    ensures Filled(rows, side)(j) == Insert(rows, side.kind, side.second)(Insert(rows, side.kind, side.first)(j))
  {
    var j1 := Insert(rows, side.kind, side.first)(j);
    assert Joined(rows, side.kind, j1) == Joined(rows, side.kind, j);
    match Joined(rows, side.kind, j)
    case None =>
    case Some(r) => assert j.lines + LinesFor(side, r, j.at) == j1.lines + side.second(r, j1.at);
  }

  lemma OpenSideIs(s: State, rows: seq<Row>, side: Side)
    ensures OpenSide(s, rows, side)
         == s.(journals := Map(s.journals + NewHeaders(s, rows, side), Filled(rows, side)), next := s.next + |NewHeaders(s, rows, side)|)
  {
    var js := s.journals + NewHeaders(s, rows, side);
    forall j | j in js
      ensures Filled(rows, side)(j) == Insert(rows, side.kind, side.second)(Insert(rows, side.kind, side.first)(j))
    {
      BothInserts(rows, side, j);
    }
    MapTwice(js, Insert(rows, side.kind, side.first), Insert(rows, side.kind, side.second), Filled(rows, side));
  }

  function Plus(f: Journal -> int, g: Journal -> int): Journal -> int {
    (j: Journal) => f(j) + g(j)
  }

  lemma {:induction false} FillNet(js: seq<Journal>, rows: seq<Row>, side: Side, a: nat)
    ensures Sum(Map(js, Filled(rows, side)), JOn(a)) == Sum(js, JOn(a)) + Sum(js, Extra(rows, side, a))
  {
    forall j | j in js
      ensures Plus(JOn(a), Extra(rows, side, a))(j) == JOn(a)(Filled(rows, side)(j))
    {
      match Joined(rows, side.kind, j)
      case None =>
      case Some(r) => SumConcat(j.lines, LinesFor(side, r, j.at), OnAccount(a));
    }
    SumMap(js, Filled(rows, side), JOn(a), Plus(JOn(a), Extra(rows, side, a)));
    SumPlus(js, Plus(JOn(a), Extra(rows, side, a)), JOn(a), Extra(rows, side, a));
  }

  /** No journal is yet taken for an opening journal of these rows. */
  predicate NoMarks(js: seq<Journal>, rows: seq<Row>, kind: RefKind) {
    forall j :: j in js ==> Joined(rows, kind, j).None?
  }

  /** What one half books on an account: the lines of the rows it opens, plus once more those of journals that were open already. */
  lemma SideNet(s: State, rows: seq<Row>, side: Side, a: nat)
    requires UniqueRows(rows) && side.headers
    ensures Sum(OpenSide(s, rows, side).journals, JOn(a))
         == Sum(s.journals, JOn(a)) + Sum(s.journals, Extra(rows, side, a)) + Sum(rows, Opens(s.journals, side, a))
    ensures NoMarks(s.journals, rows, side.kind) ==> Sum(s.journals, Extra(rows, side, a)) == 0
  {
    var hs := Headers(s.journals, rows, side, s.next);
    OpenSideIs(s, rows, side);
    FillNet(s.journals + hs, rows, side, a);
    SumConcat(s.journals, hs, JOn(a));
    SumConcat(s.journals, hs, Extra(rows, side, a));
    HeadersExtra(s.journals, rows, rows, side, s.next, a);
    HeadersAre(s.journals, rows, side, s.next);
    SumZero(hs, JOn(a));
    if NoMarks(s.journals, rows, side.kind) {
      SumZero(s.journals, Extra(rows, side, a));
    }
  }

  // ---- one run closes the gaps ----

  /** Every account the migration books to is in the chart. */
  ghost predicate FullChart(s: State) {
    && ChartOk(s.chart)
    && AccountByCode(s.chart, RECEIVABLE).Some? && AccountByCode(s.chart, REVENUE).Some? && AccountByCode(s.chart, PAYABLE).Some?
    && forall r :: r in s.ap ==> AccountByCode(s.chart, ExpenseCode(r.category)).Some?
  }

  lemma PairLines(x: Line, y: Line, f: Line -> int)
    ensures Sum([x] + [y], f) == f(x) + f(y)
  {
    assert [x] + [y] == [x, y];
    SumPair(x, y, f);
  }

  /** The two lines of a receivable: its amount on 1100, its amount on revenue, in balance. */
  lemma ArLines(s: State, r: Row, at: Option<int>, a: Account)
    requires FullChart(s) && a in s.chart && (a.code == RECEIVABLE || a.code == PAYABLE)
    ensures Sum(LinesFor(ArSide(s.chart), r, at), OnAccount(a.id)) == if a.code == RECEIVABLE then r.amount else 0
    ensures Sum(LinesFor(ArSide(s.chart), r, at), Net()) == 0
  {
    var recv, rev := AccountByCode(s.chart, RECEIVABLE), AccountByCode(s.chart, REVENUE);
    CodesDiffer();
    SameIdSameAccount(s.chart, recv.value, a);
    SameIdSameAccount(s.chart, rev.value, a);
    var x, y := DebitLine(recv, "Receivable: ")(r, at)[0], CreditLine(rev, "Revenue: ")(r, at)[0];
    PairLines(x, y, OnAccount(a.id));
    PairLines(x, y, Net());
  }

  lemma ApLines(s: State, r: Row, at: Option<int>, a: Account)
    requires FullChart(s) && r in s.ap && a in s.chart && (a.code == RECEIVABLE || a.code == PAYABLE)
    ensures Sum(LinesFor(ApSide(s.chart), r, at), OnAccount(a.id)) == if a.code == PAYABLE then -r.amount else 0
    ensures Sum(LinesFor(ApSide(s.chart), r, at), Net()) == 0
  {
    var pay, exp := AccountByCode(s.chart, PAYABLE), AccountByCode(s.chart, ExpenseCode(r.category));
    CodesDiffer();
    ExpenseCodeIsOther(r.category);
    SameIdSameAccount(s.chart, pay.value, a);
    SameIdSameAccount(s.chart, exp.value, a);
    var x, y := CreditLine(pay, "")(r, at)[0], ExpenseLine(s.chart)(r, at)[0];
    PairLines(x, y, OnAccount(a.id));
    PairLines(x, y, Net());
  }

  function Unopened(js: seq<Journal>, kind: RefKind): Row -> int {
    (r: Row) => if Opened(js, kind, r.id) then 0 else r.amount
  }

  function Minus(f: Row -> int): Row -> int {
    (r: Row) => -f(r)
  }

  lemma {:induction false} SumMinus(rows: seq<Row>, f: Row -> int)
    ensures Sum(rows, Minus(f)) == -Sum(rows, f)
  {
    if rows != [] {
      SumMinus(rows[1..], f);
    }
  }

  /** The receivables half moves 1100 by the amounts it opens, and 2000 by nothing. */
  lemma ArHalf(s: State, a: Account)
    requires FullChart(s) && UniqueRows(s.ar) && NoMarks(s.journals, s.ar, ReceivableRef)
    requires a in s.chart && (a.code == RECEIVABLE || a.code == PAYABLE)
    ensures Sum(OpenSide(s, s.ar, ArSide(s.chart)).journals, JOn(a.id))
         == Sum(s.journals, JOn(a.id)) + if a.code == RECEIVABLE then Sum(s.ar, Unopened(s.journals, ReceivableRef)) else 0
  {
    var side := ArSide(s.chart);
    SideNet(s, s.ar, side, a.id);
    forall r | r in s.ar
      ensures Opens(s.journals, side, a.id)(r) == if a.code == RECEIVABLE then Unopened(s.journals, ReceivableRef)(r) else 0
    {
      ArLines(s, r, Some(r.createdAt), a);
    }
    if a.code == RECEIVABLE {
      SumSame(s.ar, Opens(s.journals, side, a.id), Unopened(s.journals, ReceivableRef));
    } else {
      SumZero(s.ar, Opens(s.journals, side, a.id));
    }
  }

  lemma ApOpens(s: State, a: Account)
    requires FullChart(s) && a in s.chart && (a.code == RECEIVABLE || a.code == PAYABLE)
    ensures Sum(s.ap, Opens(s.journals, ApSide(s.chart), a.id))
         == if a.code == PAYABLE then -Sum(s.ap, Unopened(s.journals, PayableRef)) else 0
  {
    var opens := Opens(s.journals, ApSide(s.chart), a.id);
    forall r | r in s.ap
      ensures opens(r) == if a.code == PAYABLE then Minus(Unopened(s.journals, PayableRef))(r) else 0
    {
      ApLines(s, r, Some(r.createdAt), a);
    }
    if a.code == PAYABLE {
      SumSame(s.ap, opens, Minus(Unopened(s.journals, PayableRef)));
      SumMinus(s.ap, Unopened(s.journals, PayableRef));
    } else {
      SumZero(s.ap, opens);
    }
  }

  lemma ApHalf(s: State, a: Account)
    requires FullChart(s) && UniqueRows(s.ap) && NoMarks(s.journals, s.ap, PayableRef)
    requires a in s.chart && (a.code == RECEIVABLE || a.code == PAYABLE)
    ensures Sum(OpenSide(s, s.ap, ApSide(s.chart)).journals, JOn(a.id))
         == Sum(s.journals, JOn(a.id)) - if a.code == PAYABLE then Sum(s.ap, Unopened(s.journals, PayableRef)) else 0
  {
    SideNet(s, s.ap, ApSide(s.chart), a.id);
    ApOpens(s, a);
  }

  /** What the receivables half leaves for the payables half to see. */
  lemma ArLeavesAp(s: State, rows: seq<Row>)
    ensures var s1 := OpenSide(s, s.ar, ArSide(s.chart));
            && (NoMarks(s.journals, rows, PayableRef) ==> NoMarks(s1.journals, rows, PayableRef))
            && (forall r: Row :: Opened(s1.journals, PayableRef, r.id) <==> Opened(s.journals, PayableRef, r.id))
  {
    var side := ArSide(s.chart);
    var s1 := OpenSide(s, s.ar, side);
    var hs := NewHeaders(s, s.ar, side);
    OpenSideIs(s, s.ar, side);
    HeadersAre(s.journals, s.ar, side, s.next);
    forall i | 0 <= i < |s1.journals|
      ensures s1.journals[i].kind == PayableRef ==> s1.journals[i] in s.journals
    {
      var j := (s.journals + hs)[i];
      assert s1.journals[i] == Filled(s.ar, side)(j);
      assert j in s.journals || j in hs;
    }
    forall i | 0 <= i < |s.journals| && s.journals[i].kind == PayableRef
      ensures s.journals[i] in s1.journals
    {
      assert s1.journals[i] == Filled(s.ar, side)((s.journals + hs)[i]);
    }
  }

  ghost predicate Ready(s: State) {
    && FullChart(s) && UniqueRows(s.ar) && UniqueRows(s.ap)
    && NoMarks(s.journals, s.ar, ReceivableRef) && NoMarks(s.journals, s.ap, PayableRef)
  }

  /** The payables half starts from books with the same chart and rows, and no marks of its own. */
  lemma ArHalfLeavesReady(s: State)
    requires Ready(s)
    ensures var s1 := OpenSide(s, s.ar, ArSide(s.chart));
            && FullChart(s1) && s1.chart == s.chart && s1.ap == s.ap && s1.ar == s.ar
            && NoMarks(s1.journals, s1.ap, PayableRef)
            && Sum(s1.ap, Unopened(s1.journals, PayableRef)) == Sum(s.ap, Unopened(s.journals, PayableRef))
  {
    var s1 := OpenSide(s, s.ar, ArSide(s.chart));
    ArLeavesAp(s, s.ap);
    SumSame(s.ap, Unopened(s1.journals, PayableRef), Unopened(s.journals, PayableRef));
  }

  /** One run on a control account: the amounts of the rows that had no creation journal. */
  lemma MigrateNet(s: State, a: Account)
    requires Ready(s) && a in s.chart && (a.code == RECEIVABLE || a.code == PAYABLE)
    ensures Sum(Migrate(s).journals, JOn(a.id)) == Sum(s.journals, JOn(a.id))
          + (if a.code == RECEIVABLE then Sum(s.ar, Unopened(s.journals, ReceivableRef)) else 0)
          - (if a.code == PAYABLE then Sum(s.ap, Unopened(s.journals, PayableRef)) else 0)
  {
    ArHalfLeavesReady(s);
    ArHalf(s, a);
    ApHalf(OpenSide(s, s.ar, ArSide(s.chart)), a);
  }

  /** One run: each gap falls by exactly the amounts of the rows that had no creation journal. */
  lemma MigrateMovesGaps(s: State)
    requires Ready(s)
    ensures ArGap(Migrate(s)) == ArGap(s) - Sum(s.ar, Unopened(s.journals, ReceivableRef))
    ensures ApGap(Migrate(s)) == ApGap(s) - Sum(s.ap, Unopened(s.journals, PayableRef))
  {
    CodesDiffer();
    MigrateNet(s, AccountByCode(s.chart, RECEIVABLE).value);
    MigrateNet(s, AccountByCode(s.chart, PAYABLE).value);
  }

  function Settlement(): Row -> int {
    (r: Row) => r.paid
  }

  /** No row has a creation journal, and the control accounts hold what was paid. */
  ghost predicate OnlyPaymentsBooked(s: State) {
    && (forall r :: r in s.ar ==> !Opened(s.journals, ReceivableRef, r.id) && r.paid + r.balance == r.amount)
    && (forall r :: r in s.ap ==> !Opened(s.journals, PayableRef, r.id) && r.paid + r.balance == r.amount)
    && NetOn(s, RECEIVABLE) == -Sum(s.ar, Settlement())
    && NetOn(s, PAYABLE) == Sum(s.ap, Settlement())
  }

  /**
   From rows with payment journals but no creation journals, one run makes both
   control accounts equal their sub-ledgers.
   */
  lemma MigrateClosesGaps(s: State)
    requires Ready(s)
    requires OnlyPaymentsBooked(s)
    ensures ArGap(Migrate(s)) == 0 && ApGap(Migrate(s)) == 0
  {
    var t, ar, ap := Migrate(s), Sum(s.ar, Unopened(s.journals, ReceivableRef)), Sum(s.ap, Unopened(s.journals, PayableRef));
    assert ArGap(t) == ArGap(s) - ar && ApGap(t) == ApGap(s) - ap by {
      MigrateMovesGaps(s);
    }
    assert ArGap(s) == ar && ApGap(s) == ap by {
      GapsAreUnopened(s);
    }
  }

  /** Before the run each difference is what was never booked. */
  lemma GapsAreUnopened(s: State)
    requires OnlyPaymentsBooked(s)
    ensures ArGap(s) == Sum(s.ar, Unopened(s.journals, ReceivableRef)) && ApGap(s) == Sum(s.ap, Unopened(s.journals, PayableRef))
  {
    UnopenedIsAll(s.ar, s.journals, ReceivableRef);
    UnopenedIsAll(s.ap, s.journals, PayableRef);
  }

  lemma UnopenedIsAll(rows: seq<Row>, js: seq<Journal>, kind: RefKind)
    requires forall r :: r in rows ==> !Opened(js, kind, r.id) && r.paid + r.balance == r.amount
    ensures Sum(rows, Unopened(js, kind)) == Sum(rows, Settlement()) + Sum(rows, Balance())
  {
    SumPlus(rows, Unopened(js, kind), Settlement(), Balance());
  }

  // ---- exactly one balanced opening journal per row ----

  lemma {:induction false} HeaderAt(js: seq<Journal>, rows: seq<Row>, side: Side, next: nat, r: Row) returns (i: nat)
    requires UniqueRows(rows) && r in rows && !Opened(js, side.kind, r.id)
    ensures var hs := Headers(js, rows, side, next);
            && i < |hs| && hs[i] == OpeningHeader(side, r, hs[i].id)
            && forall k :: 0 <= k < |hs| && k != i ==> hs[k].ref != Some(r.id)
  {
    var hs := Headers(js, rows, side, next);
    if rows[0] == r {
      i := 0;
      var rest := Headers(js, rows[1..], side, next + 1);
      HeadersAre(js, rows[1..], side, next + 1);
      forall k | 0 < k < |hs|
        ensures hs[k].ref != Some(r.id)
      {
        assert hs[k] == rest[k - 1];
        assert rest[k - 1] in rest;
      }
    } else if Opened(js, side.kind, rows[0].id) {
      i := HeaderAt(js, rows[1..], side, next, r);
    } else {
      i := HeaderAt(js, rows[1..], side, next + 1, r);
      i := i + 1;
    }
  }

  /** The opening journal of a row: its two lines and nothing else, dated and tagged like the row. */
  ghost predicate IsOpeningOf(j: Journal, side: Side, r: Row) {
    && Creates(j, side.kind, r.id)
    && j.posted && j.at == Some(r.createdAt) && j.store == r.store
    && j.lines == LinesFor(side, r, Some(r.createdAt))
  }

  ghost predicate OpenedOnce(js: seq<Journal>, side: Side, r: Row) {
    exists i :: 0 <= i < |js| && IsOpeningOf(js[i], side, r) && forall k :: 0 <= k < |js| && Creates(js[k], side.kind, r.id) ==> k == i
  }

  /** A filled header is the opening journal of its row. */
  lemma FilledHeader(rows: seq<Row>, side: Side, r: Row, id: nat)
    requires UniqueRows(rows) && r in rows
    ensures IsOpeningOf(Filled(rows, side)(OpeningHeader(side, r, id)), side, r)
  {
    JoinedHeader(rows, side, r, id);
    assert [] + LinesFor(side, r, Some(r.createdAt)) == LinesFor(side, r, Some(r.createdAt));
  }

  lemma CreatorIsFilled(js: seq<Journal>, hs: seq<Journal>, rows: seq<Row>, side: Side, id: nat, k: nat)
    requires k < |js| + |hs| && Creates(Map(js + hs, Filled(rows, side))[k], side.kind, id) && !Opened(js, side.kind, id)
    ensures k >= |js| && Creates(hs[k - |js|], side.kind, id)
  {
    var j := (js + hs)[k];
    assert Map(js + hs, Filled(rows, side))[k] == Filled(rows, side)(j);
    assert Creates(j, side.kind, id);
    assert j in js || (k >= |js| && j == hs[k - |js|]);
  }

  lemma SideOpensOnce(s: State, rows: seq<Row>, side: Side, r: Row)
    requires UniqueRows(rows) && r in rows && side.headers && !Opened(s.journals, side.kind, r.id)
    ensures OpenedOnce(OpenSide(s, rows, side).journals, side, r)
  {
    OpenSideIs(s, rows, side);
    FilledOnce(s.journals, Headers(s.journals, rows, side, s.next), rows, side, s.next, r);
  }

  lemma FilledOnce(js: seq<Journal>, hs: seq<Journal>, rows: seq<Row>, side: Side, next: nat, r: Row)
    requires UniqueRows(rows) && r in rows && !Opened(js, side.kind, r.id) && hs == Headers(js, rows, side, next)
    ensures OpenedOnce(Map(js + hs, Filled(rows, side)), side, r)
  {
    var all, n := Map(js + hs, Filled(rows, side)), |js|;
    var i := HeaderAt(js, rows, side, next, r);
    FilledHeader(rows, side, r, hs[i].id);
    assert all[n + i] == Filled(rows, side)((js + hs)[n + i]) == Filled(rows, side)(hs[i]);
    forall k | 0 <= k < |all| && Creates(all[k], side.kind, r.id)
      ensures k == n + i
    {
      CreatorIsFilled(js, hs, rows, side, r.id, k);
    }
  }

  /** A half leaves journals of other kinds where they are. */
  lemma OtherKindStays(s: State, rows: seq<Row>, side: Side, side': Side, r: Row)
    requires OpenedOnce(s.journals, side', r) && side'.kind != side.kind
    ensures OpenedOnce(OpenSide(s, rows, side).journals, side', r)
  {
    var hs, js := NewHeaders(s, rows, side), OpenSide(s, rows, side).journals;
    OpenSideIs(s, rows, side);
    HeadersAre(s.journals, rows, side, s.next);
    var i :| 0 <= i < |s.journals| && IsOpeningOf(s.journals[i], side', r)
             && forall k :: 0 <= k < |s.journals| && Creates(s.journals[k], side'.kind, r.id) ==> k == i;
    assert js[i] == Filled(rows, side)((s.journals + hs)[i]) == s.journals[i];
    forall k | 0 <= k < |js| && Creates(js[k], side'.kind, r.id)
      ensures k == i
    {
      var j := (s.journals + hs)[k];
      assert js[k] == Filled(rows, side)(j);
      assert (k < |s.journals| && j == s.journals[k]) || j in hs;
    }
  }

  /**
   One run gives each row that had no creation journal exactly one, holding the
   two lines of its amount in balance, dated at the row's creation and tagged
   with its store.
   */
  lemma EachRowOpenedOnce(s: State, r: Row)
    requires Ready(s)
    ensures r in s.ar && !Opened(s.journals, ReceivableRef, r.id) ==>
      OpenedOnce(Migrate(s).journals, ArSide(s.chart), r) && Sum(LinesFor(ArSide(s.chart), r, Some(r.createdAt)), Net()) == 0
    ensures r in s.ap && !Opened(s.journals, PayableRef, r.id) ==>
      OpenedOnce(Migrate(s).journals, ApSide(s.chart), r) && Sum(LinesFor(ApSide(s.chart), r, Some(r.createdAt)), Net()) == 0
  {
    var s1 := OpenSide(s, s.ar, ArSide(s.chart));
    var recv := AccountByCode(s.chart, RECEIVABLE).value;
    if r in s.ar && !Opened(s.journals, ReceivableRef, r.id) {
      SideOpensOnce(s, s.ar, ArSide(s.chart), r);
      OtherKindStays(s1, s1.ap, ApSide(s.chart), ArSide(s.chart), r);
      ArLines(s, r, Some(r.createdAt), recv);
    }
    if r in s.ap && !Opened(s.journals, PayableRef, r.id) {
      ArLeavesAp(s, s.ap);
      SideOpensOnce(s1, s1.ap, ApSide(s.chart), r);
      ApLines(s, r, Some(r.createdAt), recv);
    }
  }

  // ---- running it twice ----

  lemma {:induction false} HeadersNone(js: seq<Journal>, rows: seq<Row>, side: Side, next: nat)
    requires forall r :: r in rows ==> Opened(js, side.kind, r.id)
    ensures Headers(js, rows, side, next) == []
  {
    if rows != [] {
      assert rows[0] in rows;
      HeadersNone(js, rows[1..], side, next);
    }
  }

  lemma {:induction false} MapSame<T>(s: seq<T>, m: T -> T)
    requires forall x :: x in s ==> m(x) == x
    ensures Map(s, m) == s
  {
    if s != [] {
      MapSame(s[1..], m);
    }
  }

  /** Nothing left to open, and no journal that the unguarded line inserts would join. */
  predicate NothingToDo(s: State, rows: seq<Row>, kind: RefKind) {
    (forall r :: r in rows ==> Opened(s.journals, kind, r.id)) && NoMarks(s.journals, rows, kind)
  }

  ghost predicate BothLines(rows: seq<Row>, side: Side) {
    side.headers && forall r, at :: r in rows ==> |LinesFor(side, r, at)| == 2
  }

  lemma SideIdle(s: State, rows: seq<Row>, side: Side)
    requires NothingToDo(s, rows, side.kind)
    ensures OpenSide(s, rows, side) == s
  {
    OpenSideIs(s, rows, side);
    HeadersNone(s.journals, rows, side, s.next);
    assert s.journals + [] == s.journals;
    MapSame(s.journals, Filled(rows, side));
  }

  /** Otherwise the half leaves a mark: the id counter moves, or a journal gets longer. */
  lemma SideBusy(s: State, rows: seq<Row>, side: Side)
    requires UniqueRows(rows) && BothLines(rows, side) && !NothingToDo(s, rows, side.kind)
    ensures var s' := OpenSide(s, rows, side);
            s'.next > s.next || exists k :: 0 <= k < |s.journals| && |s'.journals[k].lines| > |s.journals[k].lines|
  {
    var s' := OpenSide(s, rows, side);
    OpenSideIs(s, rows, side);
    if r :| r in rows && !Opened(s.journals, side.kind, r.id) {
      var i := HeaderAt(s.journals, rows, side, s.next, r);
    } else {
      var j :| j in s.journals && Joined(rows, side.kind, j).Some?;
      var k :| 0 <= k < |s.journals| && s.journals[k] == j;
      assert s'.journals[k] == Filled(rows, side)((s.journals + NewHeaders(s, rows, side))[k]);
      var r := Joined(rows, side.kind, j).value;
      assert r in rows && |LinesFor(side, r, j.at)| == 2;
    }
  }

  lemma SideGrows(s: State, rows: seq<Row>, side: Side)
    ensures var s' := OpenSide(s, rows, side);
            && s'.next >= s.next && |s'.journals| >= |s.journals|
            && forall k :: 0 <= k < |s.journals| ==> |s'.journals[k].lines| >= |s.journals[k].lines|
  {
    OpenSideIs(s, rows, side);
    var s' := OpenSide(s, rows, side);
    forall k | 0 <= k < |s.journals|
      ensures |s'.journals[k].lines| >= |s.journals[k].lines|
    {
      assert s'.journals[k] == Filled(rows, side)((s.journals + NewHeaders(s, rows, side))[k]);
    }
  }

  lemma BothSidesWrite(s: State)
    requires FullChart(s)
    ensures BothLines(s.ar, ArSide(s.chart)) && BothLines(s.ap, ApSide(s.chart))
  {
  }

  /** A run changes nothing exactly when every row has a creation journal and none of these is an opening entry. */
  lemma NoOpExactly(s: State)
    requires FullChart(s) && UniqueRows(s.ar) && UniqueRows(s.ap)
    ensures Migrate(s) == s <==> NothingToDo(s, s.ar, ReceivableRef) && NothingToDo(s, s.ap, PayableRef)
  {
    var s1 := OpenSide(s, s.ar, ArSide(s.chart));
    BothSidesWrite(s);
    if NothingToDo(s, s.ar, ReceivableRef) {
      SideIdle(s, s.ar, ArSide(s.chart));
      if NothingToDo(s, s.ap, PayableRef) {
        SideIdle(s, s.ap, ApSide(s.chart));
      } else {
        SideBusy(s, s.ap, ApSide(s.chart));
      }
    } else {
      SideBusy(s, s.ar, ArSide(s.chart));
      SideGrows(s1, s1.ap, ApSide(s1.chart));
    }
  }

  lemma OpenedIsMarked(s: State, rows: seq<Row>, side: Side, r: Row)
    requires UniqueRows(rows) && r in rows && side.headers && !Opened(s.journals, side.kind, r.id)
    ensures !NoMarks(OpenSide(s, rows, side).journals, rows, side.kind)
  {
    var hs, js := Headers(s.journals, rows, side, s.next), OpenSide(s, rows, side).journals;
    OpenSideIs(s, rows, side);
    var i := HeaderAt(s.journals, rows, side, s.next, r);
    var n := |s.journals|;
    JoinedHeader(rows, side, r, hs[i].id);
    assert js[n + i] == Filled(rows, side)((s.journals + hs)[n + i]) == Filled(rows, side)(hs[i]);
    assert Joined(rows, side.kind, js[n + i]) == Some(r);
    assert js[n + i] in js;
  }

  lemma MarksStay(s: State, rows: seq<Row>, kind: RefKind, rows': seq<Row>, side: Side)
    requires !NoMarks(s.journals, rows, kind)
    ensures !NoMarks(OpenSide(s, rows', side).journals, rows, kind)
  {
    OpenSideIs(s, rows', side);
    var js := OpenSide(s, rows', side).journals;
    var j :| j in s.journals && Joined(rows, kind, j).Some?;
    var k :| 0 <= k < |s.journals| && s.journals[k] == j;
    assert js[k] == Filled(rows', side)((s.journals + NewHeaders(s, rows', side))[k]);
    assert Joined(rows, kind, js[k]) == Joined(rows, kind, j);
    assert js[k] in js;
  }

  /** "Running it twice is a no-op" holds exactly when the first run opened nothing. */
  lemma TwiceIsNoOpExactly(s: State)
    requires Ready(s)
    ensures Migrate(Migrate(s)) == Migrate(s) <==>
      (forall r :: r in s.ar ==> Opened(s.journals, ReceivableRef, r.id)) && (forall r :: r in s.ap ==> Opened(s.journals, PayableRef, r.id))
  {
    var s1 := OpenSide(s, s.ar, ArSide(s.chart));
    NoOpExactly(s);
    NoOpExactly(Migrate(s));
    if r :| r in s.ar && !Opened(s.journals, ReceivableRef, r.id) {
      OpenedIsMarked(s, s.ar, ArSide(s.chart), r);
      MarksStay(s1, s.ar, ReceivableRef, s1.ap, ApSide(s1.chart));
    } else if r :| r in s.ap && !Opened(s.journals, PayableRef, r.id) {
      ArLeavesAp(s, s.ap);
      OpenedIsMarked(s1, s1.ap, ApSide(s1.chart), r);
    }
  }

  // ---- how much a second run books ----

  /** Filling journals changes neither which rows they join nor when they were posted. */
  lemma {:induction false} FilledKeepsExtra(js: seq<Journal>, rows: seq<Row>, side: Side, rows': seq<Row>, side': Side, a: nat)
    ensures Sum(Map(js, Filled(rows', side')), Extra(rows, side, a)) == Sum(js, Extra(rows, side, a))
  {
    SumMap(js, Filled(rows', side'), Extra(rows, side, a), Extra(rows, side, a));
  }

  /** The lines the next run would add for a side are those this run opened, plus those it found. */
  lemma ExtraAfter(s: State, rows: seq<Row>, side: Side, a: nat)
    requires UniqueRows(rows) && side.headers
    ensures Sum(OpenSide(s, rows, side).journals, Extra(rows, side, a))
         == Sum(s.journals, Extra(rows, side, a)) + Sum(rows, Opens(s.journals, side, a))
  {
    var hs := Headers(s.journals, rows, side, s.next);
    OpenSideIs(s, rows, side);
    FilledKeepsExtra(s.journals + hs, rows, side, rows, side, a);
    SumConcat(s.journals, hs, Extra(rows, side, a));
    HeadersExtra(s.journals, rows, rows, side, s.next, a);
  }

  lemma ExtraOfOtherSide(s: State, rows: seq<Row>, side: Side, rows': seq<Row>, side': Side, a: nat)
    requires side.kind != side'.kind
    ensures Sum(OpenSide(s, rows', side').journals, Extra(rows, side, a)) == Sum(s.journals, Extra(rows, side, a))
  {
    var hs := NewHeaders(s, rows', side');
    OpenSideIs(s, rows', side');
    FilledKeepsExtra(s.journals + hs, rows, side, rows', side', a);
    SumConcat(s.journals, hs, Extra(rows, side, a));
    HeadersAre(s.journals, rows', side', s.next);
    SumZero(hs, Extra(rows, side, a));
  }

  /** A half that finds every row opened books what it would join, once more. */
  lemma SideAgain(s: State, rows: seq<Row>, side: Side, a: nat)
    requires UniqueRows(rows) && side.headers && forall r :: r in rows ==> Opened(s.journals, side.kind, r.id)
    ensures Sum(OpenSide(s, rows, side).journals, JOn(a)) == Sum(s.journals, JOn(a)) + Sum(s.journals, Extra(rows, side, a))
  {
    SideNet(s, rows, side, a);
    SumZero(rows, Opens(s.journals, side, a));
  }

  lemma StaysOpened(s: State, rows: seq<Row>, side: Side, kind: RefKind, id: nat)
    requires Opened(s.journals, kind, id)
    ensures Opened(OpenSide(s, rows, side).journals, kind, id)
  {
    OpenSideIs(s, rows, side);
    var js := OpenSide(s, rows, side).journals;
    var j :| j in s.journals && Creates(j, kind, id);
    var k :| 0 <= k < |s.journals| && s.journals[k] == j;
    assert js[k] == Filled(rows, side)((s.journals + NewHeaders(s, rows, side))[k]);
    assert js[k] in js;
  }

  lemma SideOpensAll(s: State, rows: seq<Row>, side: Side)
    requires UniqueRows(rows) && side.headers
    ensures forall r :: r in rows ==> Opened(OpenSide(s, rows, side).journals, side.kind, r.id)
  {
    forall r | r in rows
      ensures Opened(OpenSide(s, rows, side).journals, side.kind, r.id)
    {
      if Opened(s.journals, side.kind, r.id) {
        StaysOpened(s, rows, side, side.kind, r.id);
      } else {
        SideOpensOnce(s, rows, side, r);
      }
    }
  }

  /** What the first run of a migration leaves: every row opened, and the lines a second would add are its own. */
  lemma FirstRun(s: State, a: nat)
    requires Ready(s)
    ensures var t := Migrate(s);
            && (forall r :: r in t.ar ==> Opened(t.journals, ReceivableRef, r.id))
            && (forall r :: r in t.ap ==> Opened(t.journals, PayableRef, r.id))
            && Sum(t.journals, Extra(t.ar, ArSide(t.chart), a)) + Sum(t.journals, Extra(t.ap, ApSide(t.chart), a))
               == Sum(t.journals, JOn(a)) - Sum(s.journals, JOn(a))
  {
    var ar, ap := ArSide(s.chart), ApSide(s.chart);
    var s1 := OpenSide(s, s.ar, ar);
    SideOpensAll(s, s.ar, ar);
    SideOpensAll(s1, s.ap, ap);
    forall r | r in s.ar
      ensures Opened(Migrate(s).journals, ReceivableRef, r.id)
    {
      StaysOpened(s1, s.ap, ap, ReceivableRef, r.id);
    }
    FirstRunExtra(s, a);
  }

  lemma FirstRunExtra(s: State, a: nat)
    requires Ready(s)
    ensures var t := Migrate(s);
            Sum(t.journals, Extra(s.ar, ArSide(s.chart), a)) + Sum(t.journals, Extra(s.ap, ApSide(s.chart), a))
            == Sum(t.journals, JOn(a)) - Sum(s.journals, JOn(a))
  {
    var ar, ap := ArSide(s.chart), ApSide(s.chart);
    var s1 := OpenSide(s, s.ar, ar);
    ArLeavesAp(s, s.ap);
    SideNet(s, s.ar, ar, a);
    SideNet(s1, s.ap, ap, a);
    ExtraAfter(s, s.ar, ar, a);
    ExtraAfter(s1, s.ap, ap, a);
    ExtraOfOtherSide(s1, s.ar, ar, s.ap, ap, a);
  }

  /** A second run books every opening entry again: each account moves once more by what the first run moved it. */
  lemma SecondRunDoubles(s: State, a: nat)
    requires Ready(s)
    ensures var t := Migrate(s);
            Sum(Migrate(t).journals, JOn(a)) - Sum(t.journals, JOn(a)) == Sum(t.journals, JOn(a)) - Sum(s.journals, JOn(a))
  {
    var t := Migrate(s);
    var t1 := OpenSide(t, t.ar, ArSide(t.chart));
    FirstRun(s, a);
    SideAgain(t, t.ar, ArSide(t.chart), a);
    forall r | r in t.ap
      ensures Opened(t1.journals, PayableRef, r.id)
    {
      StaysOpened(t, t.ar, ArSide(t.chart), PayableRef, r.id);
    }
    SideAgain(t1, t.ap, ApSide(t.chart), a);
    ExtraOfOtherSide(t, t.ap, ApSide(t.chart), t.ar, ArSide(t.chart), a);
  }

  /** Two runs on 1100: twice the amounts of the rows that had no creation journal. */
  lemma TwiceNet(s: State, recv: Account)
    requires Ready(s) && AccountByCode(s.chart, RECEIVABLE) == Some(recv)
    ensures Sum(Migrate(Migrate(s)).journals, JOn(recv.id))
         == Sum(s.journals, JOn(recv.id)) + 2 * Sum(s.ar, Unopened(s.journals, ReceivableRef))
  {
    CodesDiffer();
    MigrateNet(s, recv);
    SecondRunDoubles(s, recv.id);
  }

  /** One receivable of 500 kobo with no creation journal. */
  function SampleBooks(): State {
    Empty([Account(1, RECEIVABLE, Asset), Account(2, REVENUE, Revenue), Account(3, PAYABLE, Liability)], [], 9)
      .(ar := [OpenRow(5, "INV-1", 500, None, 0, "")])
  }

  lemma SampleCodes(chart: seq<Account>, recv: Account, rev: Account, pay: Account)
    requires chart == [recv, rev, pay] && recv.code == RECEIVABLE && rev.code == REVENUE && pay.code == PAYABLE
    ensures AccountByCode(chart, RECEIVABLE) == Some(recv) && AccountByCode(chart, REVENUE) == Some(rev)
    ensures AccountByCode(chart, PAYABLE) == Some(pay)
  {
    CodesDiffer();
    assert chart[1..] == [rev, pay] && [rev, pay][1..] == [pay];
    assert AccountByCode([pay], PAYABLE) == Some(pay) && AccountByCode([rev, pay], PAYABLE) == Some(pay);
  }

  lemma SampleChartIsFull()
    ensures FullChart(SampleBooks()) && AccountByCode(SampleBooks().chart, RECEIVABLE) == Some(SampleBooks().chart[0])
  {
    var chart := SampleBooks().chart;
    SampleCodes(chart, chart[0], chart[1], chart[2]);
    CodesDiffer();
  }

  lemma SampleIsReady()
    ensures Ready(SampleBooks()) && AccountByCode(SampleBooks().chart, RECEIVABLE) == Some(SampleBooks().chart[0])
  {
    SampleChartIsFull();
  }

  /** A single receivable that nothing booked: two runs leave 1100 at twice its amount. */
  lemma OneRowBookedTwice(s: State, recv: Account, r: Row)
    requires Ready(s) && AccountByCode(s.chart, RECEIVABLE) == Some(recv) && s.ar == [r] && s.journals == []
    ensures Migrate(Migrate(s)) != Migrate(s) && Sum(Migrate(Migrate(s)).journals, JOn(recv.id)) == 2 * r.amount
  {
    OneUnopened(s.ar, r);
    TwiceIsNoOpExactly(s);
    TwiceNet(s, recv);
  }

  lemma OneUnopened(rows: seq<Row>, r: Row)
    requires rows == [r]
    ensures r in rows && !Opened([], ReceivableRef, r.id) && Sum(rows, Unopened([], ReceivableRef)) == r.amount
  {
    SumOnly(rows, 0, Unopened([], ReceivableRef));
  }

  /** So the remark that running it twice is a no-op fails on this one row. */
  lemma TwiceIsNotANoOp()
    ensures var t := Migrate(SampleBooks()); Migrate(t) != t
  {
    SampleIsReady();
    OneRowBookedTwice(SampleBooks(), SampleBooks().chart[0], SampleBooks().ar[0]);
  }
}
