/** The cash flow statement, grouped as the query groups it, against the cash account's balance. */
module CashFlow {
  import opened Results
  import opened Sums
  import opened Ledger
  import opened Reports
  import opened Statements

  /** GROUP BY journal number, description and posting time; the number is unique to the journal. */
  datatype Key = Key(journal: nat, desc: string, at: Option<int>)

  datatype Flow = Flow(key: Key, amount: int)

  predicate HeaderIn(j: Journal, from: int, to: int) {
    j.posted && j.at.Some? && from <= j.at.value <= to
  }

  predicate InPeriod(j: Journal, from: int, to: int, store: Option<nat>) {
    HeaderIn(j, from, to) && InStore(j, store)
  }

  function Side(l: Line, inflow: bool): int {
    if inflow then l.debit else l.credit
  }

  predicate IsFlow(l: Line, inflow: bool) {
    l.code == CASH && Side(l, inflow) > 0
  }

  function FlowsOfLines(j: Journal, ls: seq<Line>, inflow: bool): seq<Flow> {
    if ls == [] then []
    else
      (if IsFlow(ls[0], inflow) then [Flow(Key(j.id, ls[0].desc, j.at), Side(ls[0], inflow))] else [])
      + FlowsOfLines(j, ls[1..], inflow)
  }

  /** The joined and filtered rows, before grouping. */
  function Ungrouped(js: seq<Journal>, inflow: bool, from: int, to: int, store: Option<nat>): seq<Flow> {
    if js == [] then []
    else
      (if InPeriod(js[0], from, to, store) then FlowsOfLines(js[0], js[0].lines, inflow) else [])
      + Ungrouped(js[1..], inflow, from, to, store)
  }

  function FindFlow(g: seq<Flow>, key: Key): (i: Option<nat>)
    ensures i.Some? ==> i.value < |g| && g[i.value].key == key
    ensures i.None? ==> forall f :: f in g ==> f.key != key
  {
    if g == [] then None
    else if g[0].key == key then Some(0)
    else match FindFlow(g[1..], key)
         case None => None
         case Some(k) => Some(k + 1)
  }

  function AddFlow(g: seq<Flow>, f: Flow): seq<Flow> {
    match FindFlow(g, f.key)
    case None => g + [f]
    case Some(i) => g[i := Flow(f.key, g[i].amount + f.amount)]
  }

  function Group(g: seq<Flow>, fs: seq<Flow>): seq<Flow>
    decreases |fs|
  {
    if fs == [] then g else Group(AddFlow(g, fs[0]), fs[1..])
  }

  function Flows(s: State, inflow: bool, from: int, to: int, store: Option<nat>): seq<Flow> {
    Group([], Ungrouped(s.journals, inflow, from, to, store))
  }

  function FlowAmount(): Flow -> int {
    (f: Flow) => f.amount
  }

  function NetCashFlow(s: State, from: int, to: int, store: Option<nat>): int {
    Sum(Flows(s, true, from, to, store), FlowAmount()) - Sum(Flows(s, false, from, to, store), FlowAmount())
  }

  // ---- grouping ----

  ghost predicate DistinctKeys(g: seq<Flow>) {
    forall i, j :: 0 <= i < j < |g| ==> g[i].key != g[j].key
  }

  lemma AddKeepsTotal(g: seq<Flow>, f: Flow)
    requires DistinctKeys(g)
    ensures Sum(AddFlow(g, f), FlowAmount()) == Sum(g, FlowAmount()) + f.amount
    ensures DistinctKeys(AddFlow(g, f))
  {
    match FindFlow(g, f.key)
    case None => SumAppend(g, f, FlowAmount());
    case Some(i) => SumUpdate(g, i, Flow(f.key, g[i].amount + f.amount), FlowAmount());
  }

  /** Grouping keeps the total and gives each key one row. */
  lemma {:induction false} GroupKeepsTotal(g: seq<Flow>, fs: seq<Flow>)
    requires DistinctKeys(g)
    ensures Sum(Group(g, fs), FlowAmount()) == Sum(g, FlowAmount()) + Sum(fs, FlowAmount())
    ensures DistinctKeys(Group(g, fs))
    decreases |fs|
  {
    if fs != [] {
      AddKeepsTotal(g, fs[0]);
      GroupKeepsTotal(AddFlow(g, fs[0]), fs[1..]);
    }
  }

  function OfKey(key: Key): Flow -> int {
    (f: Flow) => if f.key == key then f.amount else 0
  }

  lemma AddKeepsKey(g: seq<Flow>, f: Flow, key: Key)
    ensures Sum(AddFlow(g, f), OfKey(key)) == Sum(g, OfKey(key)) + OfKey(key)(f)
  {
    match FindFlow(g, f.key)
    case None => SumAppend(g, f, OfKey(key));
    case Some(i) => SumUpdate(g, i, Flow(f.key, g[i].amount + f.amount), OfKey(key));
  }

  lemma {:induction false} GroupKeepsKey(g: seq<Flow>, fs: seq<Flow>, key: Key)
    ensures Sum(Group(g, fs), OfKey(key)) == Sum(g, OfKey(key)) + Sum(fs, OfKey(key))
    decreases |fs|
  {
    if fs != [] {
      AddKeepsKey(g, fs[0], key);
      GroupKeepsKey(AddFlow(g, fs[0]), fs[1..], key);
    }
  }

  /** The cash lines of a description, on one side. */
  function CashOf(desc: string, inflow: bool): Line -> int {
    (l: Line) =>
      if l.code != "1000" || l.desc != desc then 0
      else if inflow then (if l.debit > 0 then l.debit else 0)
      else (if l.credit > 0 then l.credit else 0)
  }

  /** The part of a journal that the row of this key shows. */
  function KeyShare(key: Key, inflow: bool, from: int, to: int, store: Option<nat>): Journal -> int {
    (j: Journal) =>
      if j.id == key.journal && j.at == key.at && j.posted && j.at.Some? && from <= j.at.value <= to && (store == None || j.store == store)
      then Sum(j.lines, CashOf(key.desc, inflow)) else 0
  }

  lemma {:induction false} LinesOfKey(j: Journal, ls: seq<Line>, inflow: bool, key: Key)
    ensures Sum(FlowsOfLines(j, ls, inflow), OfKey(key))
         == if j.id == key.journal && j.at == key.at then Sum(ls, CashOf(key.desc, inflow)) else 0
  {
    if ls != [] {
      LinesOfKey(j, ls[1..], inflow, key);
      var first := if IsFlow(ls[0], inflow) then [Flow(Key(j.id, ls[0].desc, j.at), Side(ls[0], inflow))] else [];
      SumConcat(first, FlowsOfLines(j, ls[1..], inflow), OfKey(key));
      if first != [] {
        assert first[1..] == [];
      }
    }
  }

  lemma {:induction false} UngroupedOfKey(js: seq<Journal>, inflow: bool, from: int, to: int, store: Option<nat>, key: Key)
    ensures Sum(Ungrouped(js, inflow, from, to, store), OfKey(key)) == Sum(js, KeyShare(key, inflow, from, to, store))
  {
    if js != [] {
      UngroupedOfKey(js[1..], inflow, from, to, store, key);
      LinesOfKey(js[0], js[0].lines, inflow, key);
      SumConcat(if InPeriod(js[0], from, to, store) then FlowsOfLines(js[0], js[0].lines, inflow) else [],
                Ungrouped(js[1..], inflow, from, to, store), OfKey(key));
    }
  }

  /**
   The statement row by row: rows differ in journal, description or posting time,
   and each shows what the lines of that description on 1000 moved on its side in
   that journal.
   */
  lemma FlowRows(s: State, inflow: bool, from: int, to: int, store: Option<nat>, f: Flow)
    requires f in Flows(s, inflow, from, to, store)
    ensures DistinctKeys(Flows(s, inflow, from, to, store))
    ensures f.amount == Sum(s.journals, KeyShare(f.key, inflow, from, to, store))
  {
    var fs, g := Ungrouped(s.journals, inflow, from, to, store), Flows(s, inflow, from, to, store);
    GroupKeepsTotal([], fs);
    GroupKeepsKey([], fs, f.key);
    UngroupedOfKey(s.journals, inflow, from, to, store, f.key);
    var i :| 0 <= i < |g| && g[i] == f;
    SumOnly(g, i, OfKey(f.key));
  }

  // ---- the ungrouped total ----

  function FlowIn(inflow: bool): Line -> int {
    (l: Line) => if IsFlow(l, inflow) then Side(l, inflow) else 0
  }

  function JFlow(inflow: bool, from: int, to: int, store: Option<nat>): Journal -> int {
    (j: Journal) => if InPeriod(j, from, to, store) then Sum(j.lines, FlowIn(inflow)) else 0
  }

  lemma {:induction false} LinesTotal(j: Journal, ls: seq<Line>, inflow: bool)
    ensures Sum(FlowsOfLines(j, ls, inflow), FlowAmount()) == Sum(ls, FlowIn(inflow))
  {
    if ls != [] {
      LinesTotal(j, ls[1..], inflow);
      var first := if IsFlow(ls[0], inflow) then [Flow(Key(j.id, ls[0].desc, j.at), Side(ls[0], inflow))] else [];
      SumConcat(first, FlowsOfLines(j, ls[1..], inflow), FlowAmount());
      if first != [] {
        assert first[1..] == [];
      }
    }
  }

  lemma {:induction false} UngroupedTotal(js: seq<Journal>, inflow: bool, from: int, to: int, store: Option<nat>)
    ensures Sum(Ungrouped(js, inflow, from, to, store), FlowAmount()) == Sum(js, JFlow(inflow, from, to, store))
  {
    if js != [] {
      UngroupedTotal(js[1..], inflow, from, to, store);
      LinesTotal(js[0], js[0].lines, inflow);
      SumConcat(if InPeriod(js[0], from, to, store) then FlowsOfLines(js[0], js[0].lines, inflow) else [],
                Ungrouped(js[1..], inflow, from, to, store), FlowAmount());
    }
  }

  // ---- against the balance of the cash account ----

  /** Lines carry the cash code exactly when they are booked to the cash account, and amounts are not negative. */
  ghost predicate CashCoded(js: seq<Journal>, cash: nat) {
    forall j, l :: j in js && l in j.lines ==> (l.code == CASH <==> l.account == cash) && l.debit >= 0 && l.credit >= 0
  }

  function Inside(from: int, to: int): Line -> bool {
    (l: Line) => l.posted && l.at.Some? && from <= l.at.value <= to
  }

  function HeaderNet(cash: nat, from: int, to: int, store: Option<nat>): Journal -> int {
    (j: Journal) => if InPeriod(j, from, to, store) then Sum(j.lines, OnAccount(cash)) else 0
  }

  lemma FlowsAreHeaderNet(s: State, cash: nat, from: int, to: int, store: Option<nat>)
    requires CashCoded(s.journals, cash)
    ensures NetCashFlow(s, from, to, store) == Sum(s.journals, HeaderNet(cash, from, to, store))
  {
    GroupKeepsTotal([], Ungrouped(s.journals, true, from, to, store));
    GroupKeepsTotal([], Ungrouped(s.journals, false, from, to, store));
    UngroupedTotal(s.journals, true, from, to, store);
    UngroupedTotal(s.journals, false, from, to, store);
    forall j | j in s.journals
      ensures JFlow(true, from, to, store)(j) == HeaderNet(cash, from, to, store)(j) + JFlow(false, from, to, store)(j)
    {
      SumPlus(j.lines, FlowIn(true), OnAccount(cash), FlowIn(false));
    }
    SumPlus(s.journals, JFlow(true, from, to, store), HeaderNet(cash, from, to, store), JFlow(false, from, to, store));
  }

  /** A cash line on one side of the period's ends while its header is on the other. */
  function StrayCash(j: Journal, cash: nat, from: int, to: int): Line -> int {
    (l: Line) =>
      if l.account != cash || HeaderIn(j, from, to) == Inside(from, to)(l) then 0
      else if HeaderIn(j, from, to) then l.debit - l.credit
      else l.credit - l.debit
  }

  function JStrayCash(cash: nat, from: int, to: int, store: Option<nat>): Journal -> int {
    (j: Journal) => if InStore(j, store) then Sum(j.lines, StrayCash(j, cash, from, to)) else 0
  }

  lemma HeaderNetIsInsideAndStray(j: Journal, cash: nat, from: int, to: int, store: Option<nat>)
    ensures HeaderNet(cash, from, to, store)(j) == JIn(cash, Inside(from, to), store)(j) + JStrayCash(cash, from, to, store)(j)
  {
    if InStore(j, store) {
      if HeaderIn(j, from, to) {
        SumPlus(j.lines, OnAccount(cash), LineIn(cash, Inside(from, to)), StrayCash(j, cash, from, to));
      } else {
        var none := (l: Line) => 0;
        SumZero(j.lines, none);
        SumPlus(j.lines, none, LineIn(cash, Inside(from, to)), StrayCash(j, cash, from, to));
      }
    }
  }

  /**
   The statement's net is the cash balance at the end less the balance strictly
   before the start, plus the cash lines whose header is counted while they are
   not, less those that are counted while their header is not.
   */
  lemma CashFlowTelescopes(s: State, cash: Account, from: int, to: int, store: Option<nat>)
    requires cash.kind == Asset && CashCoded(s.journals, cash.id) && from <= to + 1
    ensures NetCashFlow(s, from, to, store)
         == AccountBalance(s, cash, to, store) - AccountBalance(s, cash, from - 1, store)
            + Sum(s.journals, JStrayCash(cash.id, from, to, store))
  {
    FlowsAreHeaderNet(s, cash.id, from, to, store);
    forall j | j in s.journals
      ensures HeaderNet(cash.id, from, to, store)(j)
           == JIn(cash.id, Inside(from, to), store)(j) + JStrayCash(cash.id, from, to, store)(j)
    {
      HeaderNetIsInsideAndStray(j, cash.id, from, to, store);
    }
    SumPlus(s.journals, HeaderNet(cash.id, from, to, store), JIn(cash.id, Inside(from, to), store),
            JStrayCash(cash.id, from, to, store));
    WindowsOnAccount(s, cash.id, UpTo(from - 1), Inside(from, to), UpTo(to), (l: Line) => false, store);
    NoneIn(s, cash.id, store);
  }

  lemma NoneIn(s: State, a: nat, store: Option<nat>)
    ensures NetIn(s, a, (l: Line) => false, store) == 0
  {
    var none := (l: Line) => false;
    forall j: Journal
      ensures JIn(a, none, store)(j) == 0
    {
      SumZero(j.lines, LineIn(a, none));
    }
    SumZero(s.journals, JIn(a, none, store));
  }

  // ---- the strays, one boundary at a time ----

  /** Header and lines are posted and dated. */
  ghost predicate Dated(j: Journal) {
    j.posted && j.at.Some? && forall l :: l in j.lines ==> l.posted && l.at.Some?
  }

  /** Header and lines share one stamp, as fn_post_journal writes them. */
  ghost predicate OneStamp(j: Journal) {
    forall l :: l in j.lines ==> l.posted == j.posted && l.at == j.at
  }

  /** Nothing strays when every journal is stamped once. */
  lemma NoDriftWhenStampedAlike(s: State, cash: Account, from: int, to: int, store: Option<nat>)
    requires cash.kind == Asset && CashCoded(s.journals, cash.id) && from <= to + 1
    requires forall j :: j in s.journals ==> OneStamp(j)
    ensures NetCashFlow(s, from, to, store) == AccountBalance(s, cash, to, store) - AccountBalance(s, cash, from - 1, store)
  {
    CashFlowTelescopes(s, cash, from, to, store);
    forall j | j in s.journals
      ensures JStrayCash(cash.id, from, to, store)(j) == 0
    {
      assert OneStamp(j);
      forall l | l in j.lines
        ensures StrayCash(j, cash.id, from, to)(l) == 0
      {
        assert l.posted == j.posted && l.at == j.at;
        assert HeaderIn(j, from, to) == Inside(from, to)(l);
      }
      SumZero(j.lines, StrayCash(j, cash.id, from, to));
    }
    SumZero(s.journals, JStrayCash(cash.id, from, to, store));
  }

  predicate Before(at: Option<int>, b: int) {
    at.Some? && at.value < b
  }

  /** A cash line stamped before `b` under a header stamped at or after it, or the other way round. */
  function CrossCash(j: Journal, cash: nat, b: int): Line -> int {
    (l: Line) =>
      if l.account != cash || Before(l.at, b) == Before(j.at, b) then 0
      else if Before(l.at, b) then l.debit - l.credit
      else l.credit - l.debit
  }

  /** The cash of a sale caught across `b`. */
  function SaleCross(cash: nat, b: int, store: Option<nat>): Journal -> int {
    (j: Journal) => if j.kind == SaleRef && InStore(j, store) then Sum(j.lines, CrossCash(j, cash, b)) else 0
  }

  /** Journals are dated, and only sales stamp their lines apart from their header. */
  ghost predicate StampedAsWritten(j: Journal) {
    Dated(j) && (j.kind != SaleRef ==> OneStamp(j))
  }

  lemma LineStraysTwice(j: Journal, l: Line, cash: nat, from: int, to: int)
    requires j.posted && j.at.Some? && l.posted && l.at.Some? && from <= to + 1
    ensures CrossCash(j, cash, from)(l) == StrayCash(j, cash, from, to)(l) + CrossCash(j, cash, to + 1)(l)
  {
    var h, a := j.at.value, l.at.value;
    assert HeaderIn(j, from, to) <==> from <= h < to + 1;
    assert Inside(from, to)(l) <==> from <= a < to + 1;
  }

  lemma StrayIsTwoCrossings(j: Journal, cash: nat, from: int, to: int, store: Option<nat>)
    requires StampedAsWritten(j) && from <= to + 1
    ensures JStrayCash(cash, from, to, store)(j) + SaleCross(cash, to + 1, store)(j) == SaleCross(cash, from, store)(j)
  {
    forall l | l in j.lines
      ensures CrossCash(j, cash, from)(l) == StrayCash(j, cash, from, to)(l) + CrossCash(j, cash, to + 1)(l)
      ensures j.kind != SaleRef ==> StrayCash(j, cash, from, to)(l) == 0
    {
      assert l.posted && l.at.Some? && (j.kind != SaleRef ==> l.at == j.at);
      LineStraysTwice(j, l, cash, from, to);
    }
    if j.kind == SaleRef {
      SumPlus(j.lines, CrossCash(j, cash, from), StrayCash(j, cash, from, to), CrossCash(j, cash, to + 1));
    } else {
      SumZero(j.lines, StrayCash(j, cash, from, to));
    }
  }

  /**
   Stamped as the code stamps them, journals stray by the cash of the sales
   caught across the start less the cash of those caught across the end: the
   statement telescopes exactly when these two are equal.
   */
  lemma OnlySalesStray(s: State, cash: Account, from: int, to: int, store: Option<nat>)
    requires cash.kind == Asset && CashCoded(s.journals, cash.id) && from <= to + 1
    requires forall j :: j in s.journals ==> StampedAsWritten(j)
    ensures NetCashFlow(s, from, to, store)
         == AccountBalance(s, cash, to, store) - AccountBalance(s, cash, from - 1, store)
            + Sum(s.journals, SaleCross(cash.id, from, store)) - Sum(s.journals, SaleCross(cash.id, to + 1, store))
  {
    CashFlowTelescopes(s, cash, from, to, store);
    forall j | j in s.journals
      ensures SaleCross(cash.id, from, store)(j) == JStrayCash(cash.id, from, to, store)(j) + SaleCross(cash.id, to + 1, store)(j)
    {
      StrayIsTwoCrossings(j, cash.id, from, to, store);
    }
    SumPlus(s.journals, SaleCross(cash.id, from, store), JStrayCash(cash.id, from, to, store), SaleCross(cash.id, to + 1, store));
  }

  /** A sale of the store whose header and some cash line with an amount lie on different sides of `b`. */
  ghost predicate Straddles(j: Journal, cash: nat, b: int, store: Option<nat>) {
    && j.kind == SaleRef && InStore(j, store)
    && exists l :: l in j.lines && l.account == cash && l.debit != l.credit && Before(l.at, b) != Before(j.at, b)
  }

  lemma NoneStraddles(js: seq<Journal>, cash: nat, b: int, store: Option<nat>)
    requires forall j :: j in js ==> !Straddles(j, cash, b, store)
    ensures Sum(js, SaleCross(cash, b, store)) == 0
  {
    forall j | j in js
      ensures SaleCross(cash, b, store)(j) == 0
    {
      assert !Straddles(j, cash, b, store);
      if j.kind == SaleRef && InStore(j, store) {
        SumZero(j.lines, CrossCash(j, cash, b));
      }
    }
    SumZero(js, SaleCross(cash, b, store));
  }

  /** A sale takes cash and gives none, and its lines are stamped no later than its header. */
  ghost predicate Forward(j: Journal, cash: nat) {
    && j.at.Some?
    && forall l :: l in j.lines && l.account == cash ==> l.debit >= l.credit && l.at.Some? && l.at.value <= j.at.value
  }

  lemma {:induction false} CrossOnly(j: Journal, ls: seq<Line>, cash: nat, b: int)
    requires forall l :: l in ls && l.account == cash ==> l.debit >= l.credit && (Before(j.at, b) ==> Before(l.at, b))
    ensures Sum(ls, CrossCash(j, cash, b)) >= 0
    ensures Sum(ls, CrossCash(j, cash, b)) == 0 <==>
      forall l :: l in ls && l.account == cash && l.debit != l.credit ==> Before(l.at, b) == Before(j.at, b)
  {
    if ls != [] {
      CrossOnly(j, ls[1..], cash, b);
      assert forall l :: l in ls <==> l == ls[0] || l in ls[1..];
    }
  }

  /** With clocks that run forward, nothing crosses a boundary exactly when no sale straddles it. */
  lemma {:induction false} CrossesIffStraddled(js: seq<Journal>, cash: nat, b: int, store: Option<nat>)
    requires forall j :: j in js && j.kind == SaleRef ==> Forward(j, cash)
    ensures Sum(js, SaleCross(cash, b, store)) >= 0
    ensures Sum(js, SaleCross(cash, b, store)) == 0 <==> forall j :: j in js ==> !Straddles(j, cash, b, store)
  {
    if js != [] {
      var j := js[0];
      assert j in js;
      CrossesIffStraddled(js[1..], cash, b, store);
      if j.kind == SaleRef && InStore(j, store) {
        CrossOnly(j, j.lines, cash, b);
      }
      assert Straddles(j, cash, b, store) <==> SaleCross(cash, b, store)(j) != 0;
      assert forall k :: k in js <==> k == j || k in js[1..];
    }
  }
}
