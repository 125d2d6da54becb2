/** What every reachable state keeps, and the sub-ledger theorem over whole runs. */
module Reach {
  import opened Results
  import opened Sums
  import opened Ledger
  import opened Posting
  import opened SubLedger
  import opened Sales
  import opened SalePosting
  import opened Taxes
  import opened Runs

  /** What fn_post_journal writes for a debit and a credit of one amount, header and lines stamped alike. */
  ghost predicate IsPair(j: Journal) {
    && |j.lines| == 2
    && j.lines[0].debit == j.lines[1].credit >= 0
    && j.lines[0].credit == 0 && j.lines[1].debit == 0
    && j.posted && j.at.Some? && j.kind != SaleRef && forall l :: l in j.lines ==> l.posted && l.at == j.at
  }

  /** The tables other than the chart change by one appended journal or by retagging. */
  ghost predicate Appended(s: State, s': State, j: Journal, pair: bool) {
    && s'.chart == s.chart
    && s'.journals == s.journals + [j]
    && s.next <= j.id < s'.next
    && (forall l :: l in j.lines ==> Named(s.chart, l))
    && (pair ==> IsPair(j))
  }

  ghost predicate Retagged(s: State, s': State) {
    && s'.chart == s.chart
    && s'.next == s.next
    && |s'.journals| == |s.journals|
    && forall i :: 0 <= i < |s.journals| ==>
         s'.journals[i] == s.journals[i].(store := s'.journals[i].store)
  }

  ghost predicate RowsFrom(rows: seq<Row>, rows': seq<Row>, lo: nat, hi: nat) {
    || rows' == rows
    || (exists r :: rows' == rows + [r] && lo <= r.id < hi && r.paid >= 0 && r.balance >= 0)
    || (exists i, r :: 0 <= i < |rows| && rows' == rows[i := r] && r.id == rows[i].id && r.paid >= 0 && r.balance >= 0)
  }

  ghost predicate PaysFrom(pays: seq<Payment>, pays': seq<Payment>, hi: nat) {
    || pays' == pays
    || (exists p :: pays' == pays + [p] && p.row < hi)
  }

  ghost predicate CostsFrom(es: seq<ExpenseRow>, es': seq<ExpenseRow>, hi: nat) {
    || es' == es
    || (exists e :: es' == es + [e] && e.journal < hi)
    || (exists i, e :: 0 <= i < |es| && es' == es[i := e] && e.journal == es[i].journal)
  }

  /** One request seen from the tables. */
  ghost predicate Moves(s: State, s': State, pair: bool) {
    && s.next <= s'.next
    && s'.taxes == s.taxes
    && ((exists j :: Appended(s, s', j, pair)) || Retagged(s, s'))
    && RowsFrom(s.ar, s'.ar, s.next, s'.next)
    && RowsFrom(s.ap, s'.ap, s.next, s'.next)
    && PaysFrom(s.arPays, s'.arPays, s'.next)
    && PaysFrom(s.apPays, s'.apPays, s'.next)
    && CostsFrom(s.expenses, s'.expenses, s'.next)
  }

  lemma RowsKeep(rows: seq<Row>, rows': seq<Row>, lo: nat, hi: nat)
    requires RowsSane(rows) && RowsFrom(rows, rows', lo, hi) && lo <= hi
    requires forall r :: r in rows ==> r.id < lo
    ensures RowsSane(rows') && forall r :: r in rows' ==> r.id < hi
  {
    if rows' != rows {
      forall i | 0 <= i < |rows'|
        ensures rows'[i].paid >= 0 && rows'[i].balance >= 0 && rows'[i].id < hi
      {
        assert i < |rows| ==> rows[i] in rows;
      }
      assert UniqueRows(rows');
    }
  }

  lemma JournalsKeep(s: State, s': State, pair: bool)
    requires Inv(s) && Moves(s, s', pair)
    ensures LinesNamed(s'.chart, s'.journals) && UniqueJournals(s'.journals)
    ensures forall j :: j in s'.journals ==> j.id < s'.next
  {
    forall i | 0 <= i < |s'.journals|
      ensures s'.journals[i].id < s'.next
      ensures forall l :: l in s'.journals[i].lines ==> Named(s.chart, l)
    {
      assert i < |s.journals| ==> s.journals[i] in s.journals;
    }
  }

  /** What keeps the rows apart, whatever the journals hold. */
  ghost predicate Tidy(s: State) {
    && RowsSane(s.ar) && RowsSane(s.ap)
    && (forall r :: r in s.ar ==> r.id < s.next)
    && (forall r :: r in s.ap ==> r.id < s.next)
  }

  lemma MovesKeepTidy(s: State, s': State, pair: bool)
    requires Tidy(s) && Moves(s, s', pair)
    ensures Tidy(s')
  {
    RowsKeep(s.ar, s'.ar, s.next, s'.next);
    RowsKeep(s.ap, s'.ap, s.next, s'.next);
  }

  lemma MovesKeepInv(s: State, s': State, pair: bool)
    requires Inv(s) && Moves(s, s', pair)
    ensures Inv(s')
  {
    JournalsKeep(s, s', pair);
    MovesKeepTidy(s, s', pair);
    forall i | 0 <= i < |s'.expenses|
      ensures s'.expenses[i].journal < s'.next
    {
      assert i < |s.expenses| ==> s.expenses[i] in s.expenses;
    }
  }

  lemma PairAppended(s: State, s': State, id: nat, h: Header, d: Account, c: Account, x: int, dd: string, cd: string, at: int)
    requires d in s.chart && c in s.chart && s'.chart == s.chart && x >= 0 && h.kind != SaleRef
    requires s'.journals == s.journals + [NewJournal(id, h, Pair(d, c, x, dd, cd, at), at)] && s.next <= id < s'.next
    ensures exists j :: Appended(s, s', j, true)
  {
    assert Appended(s, s', NewJournal(id, h, Pair(d, c, x, dd, cd, at), at), true);
  }

  lemma RoundNonNegative(x: real)
    requires x >= 0.0
    ensures Round(x) >= 0
  {
  }

  lemma OpenReceivableMoves(s: State, number: string, amount: real, store: Option<nat>, now: int)
    requires CreateReceivable(s, number, amount, store, now).Ok?
    ensures Moves(s, CreateReceivable(s, number, amount, store, now).value, true)
  {
    var s' := CreateReceivable(s, number, amount, store, now).value;
    var recv, rev, h, dd, cd := ReceivableShape(s, number, amount, store, now);
    RoundNonNegative(amount);
    PairAppended(s, s', s.next + 1, h, recv, rev, Round(amount), dd, cd, now);
    assert s'.ar == s.ar + [OpenRow(s.next, number, Round(amount), store, now, "")];
  }

  lemma OpenPayableMoves(s: State, number: string, amount: real, store: Option<nat>, category: string, now: int)
    requires CreatePayable(s, number, amount, store, category, now).Ok?
    ensures Moves(s, CreatePayable(s, number, amount, store, category, now).value, true)
  {
    var s' := CreatePayable(s, number, amount, store, category, now).value;
    var exp, pay, h := PayableShape(s, number, amount, store, category, now);
    RoundNonNegative(amount);
    PairAppended(s, s', s.next + 1, h, exp, pay, Round(amount), number, number, now);
    assert s'.ap == s.ap + [OpenRow(s.next, number, Round(amount), store, now, category)];
  }

  lemma ReceivePaymentMoves(s: State, id: nat, x: real, carry: bool, now: int)
    requires Tidy(s) && PayReceivable(s, id, x, carry, now).Ok?
    ensures Moves(s, PayReceivable(s, id, x, carry, now).value, true)
  {
    var s' := PayReceivable(s, id, x, carry, now).value;
    var i, cash, recv, h, desc := ReceiptShape(s, id, x, carry, now);
    RoundNonNegative(x);
    PairAppended(s, s', s.next + 1, h, cash, recv, Round(x), desc, desc, now);
    assert s.ar[i] in s.ar;
    PayRowExact(s.ar[i], x);
    assert s'.ar == s.ar[i := PayRow(s.ar[i], x).value];
    assert s'.arPays == s.arPays + [Payment(s.next, id, Round(x))];
  }

  lemma MakePaymentMoves(s: State, id: nat, x: real, now: int)
    requires Tidy(s) && PayPayable(s, id, x, now).Ok?
    ensures Moves(s, PayPayable(s, id, x, now).value, true)
  {
    var s' := PayPayable(s, id, x, now).value;
    var i, pay, cash, h, desc := DisbursementShape(s, id, x, now);
    RoundNonNegative(x);
    PairAppended(s, s', s.next + 1, h, pay, cash, Round(x), desc, desc, now);
    assert s.ap[i] in s.ap;
    PayRowExact(s.ap[i], x);
    assert s'.ap == s.ap[i := PayRow(s.ap[i], x).value];
    assert s'.apPays == s.apPays + [Payment(s.next, id, Round(x))];
  }

  lemma SpendMoves(s: State, category: string, desc: string, amount: real, store: Option<nat>, now: int)
    requires CreateExpense(s, category, desc, amount, store, now).Ok?
    ensures Moves(s, CreateExpense(s, category, desc, amount, store, now).value, true)
  {
    var s' := CreateExpense(s, category, desc, amount, store, now).value;
    var exp, cash, h := ExpenseShape(s, category, desc, amount, store, now);
    RoundNonNegative(amount);
    PairAppended(s, s', s.next, h, exp, cash, Round(amount), desc, desc, now);
    assert s'.expenses == s.expenses + [ExpenseRow(s.next + 1, category, Round(amount), store, s.next)];
  }

  lemma SellMoves(s: State, sale: Sale, plan: seq<Planned>, clock: nat -> int)
    requires PostPlanned(s, sale, plan, clock).Ok? && sale.total >= 0.0
    ensures Moves(s, PostPlanned(s, sale, plan, clock).value, false)
  {
    var s' := PostPlanned(s, sale, plan, clock).value;
    var lines := SaleLines(s.chart, plan, clock);
    var j := NewJournal(s.next, SaleHeader(sale), lines, clock(|plan|));
    forall l | l in lines
      ensures Named(s.chart, l)
    {
      var k :| 0 <= k < |lines| && lines[k] == l;
      assert Resolve(s.chart, plan, plan[k].code).value in s.chart;
    }
    assert Appended(s, s', j, false);
    RoundNonNegative(sale.total);
    if OpensRow(sale, lines) {
      assert s'.ar == s.ar + [SaleRow(s.next + 1, sale, clock(|plan| + 1))];
    }
  }

  lemma RemitMoves(s: State, code: string, x: real, payBy: string, store: Option<nat>, now: int)
    requires RemitTax(s, code, x, payBy, store, now).Ok?
    ensures Moves(s, RemitTax(s, code, x, payBy, store, now).value, true)
  {
    var tax, from := RemitShape(s, code, x, payBy, store, now);
    RoundNonNegative(x);
    PairAppended(s, RemitTax(s, code, x, payBy, store, now).value, s.next, RemitHeader(store), tax, from, Round(x),
                 "Tax remitted", "Paid out", now);
  }

  lemma MoveArMoves(s: State, id: nat, store: Option<nat>)
    requires Tidy(s) && MoveReceivable(s, id, store).Ok?
    ensures Moves(s, MoveReceivable(s, id, store).value, true)
  {
    var i := FindRow(s.ar, id).value;
    assert s.ar[i] in s.ar;
    assert MoveReceivable(s, id, store).value.ar == s.ar[i := s.ar[i].(store := store)];
  }

  lemma MoveApMoves(s: State, id: nat, store: Option<nat>)
    requires Tidy(s) && MovePayable(s, id, store).Ok?
    ensures Moves(s, MovePayable(s, id, store).value, true)
  {
    var i := FindRow(s.ap, id).value;
    assert s.ap[i] in s.ap;
    assert MovePayable(s, id, store).value.ap == s.ap[i := s.ap[i].(store := store)];
  }

  lemma MoveCostMoves(s: State, id: nat, store: Option<nat>)
    requires MoveExpense(s, id, store).Ok?
    ensures Moves(s, MoveExpense(s, id, store).value, true)
  {
    var i := FindExpense(s.expenses, id).value;
    assert MoveExpense(s, id, store).value.expenses == s.expenses[i := s.expenses[i].(store := store)];
  }

  /** delete_account never orphans a line: whatever account a line names is still in the chart. */
  lemma DropKeepsInv(s: State, id: nat)
    requires Inv(s) && DeleteAccount(s, id).Ok?
    ensures Inv(DeleteAccount(s, id).value)
    ensures !HasAccount(DeleteAccount(s, id).value.chart, id)
  {
    var chart := DeleteAccount(s, id).value.chart;
    FilterIn(s.chart, Not(id));
    FilterUnique(s.chart, id);
    forall j, l | j in s.journals && l in j.lines
      ensures Named(chart, l)
    {
      assert !Uses(j, id);
      assert Named(s.chart, l);
      var a :| a in s.chart && a.id == l.account && a.code == l.code;
      assert a in chart;
    }
  }

  lemma ChartGrows(a: Account, rest: seq<Account>)
    requires ChartOk(rest) && forall k :: 0 <= k < |rest| ==> rest[k].id != a.id && rest[k].code != a.code
    requires (a.code == RECEIVABLE ==> a.kind == Asset) && (a.code == PAYABLE ==> a.kind == Liability)
    ensures ChartOk([a] + rest)
  {
  }

  lemma {:induction false} FilterUnique(chart: seq<Account>, id: nat)
    requires ChartOk(chart)
    ensures ChartOk(Filter(chart, Not(id)))
  {
    if chart != [] {
      FilterUnique(chart[1..], id);
      FilterIn(chart[1..], Not(id));
      var rest := Filter(chart[1..], Not(id));
      forall k | 0 <= k < |rest|
        ensures rest[k].id != chart[0].id && rest[k].code != chart[0].code
      {
        assert rest[k] in chart[1..];
      }
      assert chart[0] in chart;
      ChartGrows(chart[0], rest);
    }
  }

  lemma StepKeepsInv(s: State, op: Op)
    requires Inv(s) && SaleOk(op)
    ensures Inv(Next(s, op)) && Next(s, op).taxes == s.taxes
  {
    if Step(s, op).Ok? {
      if op.DropAccount? {
        DropKeepsInv(s, op.account);
      } else {
        StepMoves(s, op);
        MovesKeepInv(s, Next(s, op), !op.Sell?);
      }
    }
  }

  lemma StepMoves(s: State, op: Op)
    requires Tidy(s) && SaleOk(op) && Step(s, op).Ok? && !op.DropAccount?
    ensures Moves(s, Next(s, op), !op.Sell?)
  {
    match op
    case OpenReceivable(number, amount, store, now) => OpenReceivableMoves(s, number, amount, store, now);
    case OpenPayable(number, amount, store, category, now) => OpenPayableMoves(s, number, amount, store, category, now);
    case ReceivePayment(row, amount, now) => ReceivePaymentMoves(s, row, amount, false, now);
    case MakePayment(row, amount, now) => MakePaymentMoves(s, row, amount, now);
    case Spend(category, desc, amount, store, now) => SpendMoves(s, category, desc, amount, store, now);
    case Sell(sale, clock) => SellMoves(s, sale, Plan(Round, sale), clock);
    case Remit(code, amount, payBy, store, now) => RemitMoves(s, code, amount, payBy, store, now);
    case MoveAr(row, store) => MoveArMoves(s, row, store);
    case MoveAp(row, store) => MoveApMoves(s, row, store);
    case MoveCost(expense, store) => MoveCostMoves(s, expense, store);
  }

  // ---- whole runs ----

  ghost predicate RunOk(s: State, ops: seq<Op>) {
    forall op :: op in ops ==> SaleOk(op) && TaxesOk(s, op)
  }

  lemma {:induction false} RunKeepsInv(s: State, ops: seq<Op>)
    requires Inv(s) && forall op :: op in ops ==> SaleOk(op)
    ensures Inv(Run(s, ops)) && Run(s, ops).taxes == s.taxes
    decreases |ops|
  {
    if ops != [] {
      StepKeepsInv(s, ops[0]);
      RunKeepsInv(Next(s, ops[0]), ops[1..]);
    }
  }

  /**
   Sub-ledger against control account, over every run and every amount: the
   two stay as far apart as they were, plus one kobo for each accepted payment
   that ends in exactly half a kobo.
   */
  lemma {:induction false} GapOverRuns(s: State, ops: seq<Op>)
    requires Inv(s) && RunOk(s, ops)
    ensures ArGap(Run(s, ops)) == ArGap(s) + ArHalves(s, ops)
    ensures ApGap(Run(s, ops)) == ApGap(s) + ApHalves(s, ops)
    decreases |ops|
  {
    if ops != [] {
      StepGap(s, ops[0]);
      StepKeepsInv(s, ops[0]);
      GapOverRuns(Next(s, ops[0]), ops[1..]);
    }
  }

  predicate KoboPayment(op: Op) {
    (op.ReceivePayment? ==> Whole(op.amount)) && (op.MakePayment? ==> Whole(op.amount))
  }

  lemma NoDrift(s: State, op: Op)
    requires KoboPayment(op)
    ensures ArDrift(s, op) == 0 && ApDrift(s, op) == 0
  {
  }

  lemma {:induction false} NoHalves(s: State, ops: seq<Op>)
    requires forall op :: op in ops ==> KoboPayment(op)
    ensures ArHalves(s, ops) == 0 && ApHalves(s, ops) == 0
    decreases |ops|
  {
    if ops != [] {
      NoDrift(s, ops[0]);
      NoHalves(Next(s, ops[0]), ops[1..]);
    }
  }

  lemma EmptyIsSound(chart: seq<Account>, taxes: seq<Tax>, next: nat)
    requires ChartOk(chart)
    ensures Inv(Empty(chart, taxes, next)) && ArGap(Empty(chart, taxes, next)) == 0 && ApGap(Empty(chart, taxes, next)) == 0
  {
  }

  /** From an empty ledger, with payments in whole kobo, the two always agree exactly. */
  lemma ControlAccountsMatch(chart: seq<Account>, taxes: seq<Tax>, next: nat, ops: seq<Op>)
    requires ChartOk(chart) && RunOk(Empty(chart, taxes, next), ops)
    requires forall op :: op in ops ==> KoboPayment(op)
    ensures var s := Run(Empty(chart, taxes, next), ops);
            && Sum(s.ar, Balance()) == NetOn(s, RECEIVABLE)
            && Sum(s.ap, Balance()) == -NetOn(s, PAYABLE)
  {
    EmptyIsSound(chart, taxes, next);
    GapOverRuns(Empty(chart, taxes, next), ops);
    NoHalves(Empty(chart, taxes, next), ops);
  }
}
