/** Tax over whole runs: what a tax account collects is either remitted or still owed. */
module TaxRuns {
  import opened Results
  import opened Sums
  import opened Ledger
  import opened Posting
  import opened SubLedger
  import opened Sales
  import opened SalePosting
  import opened Taxes
  import opened Runs
  import opened Reach

  /** An account only taxes use: none of the fixed postings names its code. */
  ghost predicate OwnTaxAccount(chart: seq<Account>, a: Account) {
    && a.code != CASH && a.code != BANK && a.code != RECEIVABLE && a.code != PAYABLE
    && a.code != REVENUE && a.code != COGS
    && (forall category :: ExpenseCode(category) != a.code)
    && (forall b :: b in chart ==> (b.id == a.id <==> b.code == a.code))
  }

  ghost predicate Untouched(j: Journal, a: nat) {
    forall l :: l in j.lines ==> l.account != a
  }

  ghost predicate OnlyCredits(j: Journal, a: nat) {
    forall l :: l in j.lines && l.account == a ==> l.debit == 0 && l.credit >= 0
  }

  /** Sales credit a tax account, remittances debit it, and nothing else touches it. */
  ghost predicate TaxBooked(j: Journal, a: nat) {
    || Untouched(j, a)
    || (j.kind == SaleRef && OnlyCredits(j, a))
    || j.kind == TaxRemittanceRef
  }

  ghost predicate TaxInv(s: State, a: Account) {
    && OwnTaxAccount(s.chart, a)
    && (forall j :: j in s.journals ==> TaxBooked(j, a.id))
    && (forall e, j :: e in s.expenses && j in s.journals && j.id == e.journal ==> j.kind == NoRef)
  }

  lemma UntouchedSums(j: Journal, a: nat, store: Option<nat>)
    requires Untouched(j, a)
    ensures JCredit(a, store)(j) == 0 && JDebit(a, store)(j) == 0 && JRemitted(a, store)(j) == 0
  {
    SumZero(j.lines, CreditOn(a));
    SumZero(j.lines, DebitOn(a));
  }

  lemma OnlyCreditsSums(j: Journal, a: nat, store: Option<nat>)
    requires OnlyCredits(j, a)
    ensures JCredit(a, store)(j) >= 0 && JDebit(a, store)(j) == 0
  {
    SumNonNegative(j.lines, CreditOn(a));
    SumZero(j.lines, DebitOn(a));
  }

  /** Still owed is collected less remitted: every debit on the account is a remittance. */
  lemma OwedIsCollectedLessRemitted(s: State, a: Account, store: Option<nat>)
    requires TaxInv(s, a)
    ensures StillOwed(s, a.id, store) == Collected(s, a.id, store) - Remitted(s, a.id, store)
  {
    forall j | j in s.journals
      ensures JDebit(a.id, store)(j) == JRemitted(a.id, store)(j)
    {
      if Untouched(j, a.id) {
        UntouchedSums(j, a.id, store);
      } else if j.kind == SaleRef {
        OnlyCreditsSums(j, a.id, store);
      }
    }
    SumSame(s.journals, JDebit(a.id, store), JRemitted(a.id, store));
  }

  /** Debits on the account by anything but a remittance. */
  function JOtherDebit(a: nat, store: Option<nat>): Journal -> int {
    (j: Journal) => if j.kind != TaxRemittanceRef && InStore(j, store) then Sum(j.lines, DebitOn(a)) else 0
  }

  /** For any account and any books: what the other debits take off. */
  lemma OwedExactly(s: State, a: nat, store: Option<nat>)
    ensures StillOwed(s, a, store) == Collected(s, a, store) - Remitted(s, a, store) - Sum(s.journals, JOtherDebit(a, store))
    ensures StillOwed(s, a, store) == Collected(s, a, store) - Remitted(s, a, store) <==> Sum(s.journals, JOtherDebit(a, store)) == 0
  {
    SumPlus(s.journals, JDebit(a, store), JRemitted(a, store), JOtherDebit(a, store));
  }

  /** A tax booked to 5900, which expenses debit. */
  function SharedBooks(): State {
    Empty([Account(1, CASH, Asset), Account(2, "5900", Expense)], [Tax("Levy", Some("5900"), true)], 9)
  }

  /** One expense of 100, and the tax account owes minus 100 although nothing was collected or remitted. */
  lemma SharedAccountOwesLess(s: State)
    requires s == SharedBooks()
    ensures CreateExpense(s, "other", "Fuel", 100.0, Some(1), 5).Ok?
    ensures var s' := CreateExpense(s, "other", "Fuel", 100.0, Some(1), 5).value;
            Collected(s', 2, Some(1)) == 0 && Remitted(s', 2, Some(1)) == 0 && StillOwed(s', 2, Some(1)) == -100
  {
    var exp, cash := s.chart[1], s.chart[0];
    CodesDiffer();
    assert "5900"[0] == '5' && s.chart[1..][0] == exp;
    assert AccountByCode(s.chart[1..], "5900") == Some(exp);
    var h := Header("Expense: " + "other" + " - " + "Fuel", None, NoRef, Some(1));
    PostPair(s, h, exp, cash, 100.0, "Fuel", "Fuel", 5);
    RoundWhole(100);
    PairOn(exp, cash, 100, "Fuel", "Fuel", 5, 2);
    var s' := CreateExpense(s, "other", "Fuel", 100.0, Some(1), 5).value;
    var j := NewJournal(9, h, Pair(exp, cash, 100, "Fuel", "Fuel", 5), 5);
    assert s'.journals == [] + [j];
    AppendOwed(s, s', j, 2, Some(1));
  }

  // ---- one appended journal ----

  lemma PairUntouched(d: Account, c: Account, x: int, dd: string, cd: string, at: int, id: nat, h: Header, a: nat)
    requires d.id != a && c.id != a
    ensures Untouched(NewJournal(id, h, Pair(d, c, x, dd, cd, at), at), a)
  {
  }

  lemma AppendTaxInv(s: State, s': State, j: Journal, a: Account)
    requires Inv(s) && TaxInv(s, a) && s'.chart == s.chart && s'.journals == s.journals + [j] && TaxBooked(j, a.id)
    requires j.id >= s.next && s'.expenses == s.expenses
    ensures TaxInv(s', a)
  {
  }

  /** A journal that leaves the account alone leaves what it owes alone, in every store. */
  lemma UntouchedKeeps(s: State, s': State, j: Journal, a: Account, store: Option<nat>)
    requires s'.journals == s.journals + [j] && Untouched(j, a.id)
    ensures StillOwed(s', a.id, store) == StillOwed(s, a.id, store)
  {
    AppendOwed(s, s', j, a.id, store);
    UntouchedSums(j, a.id, store);
  }

  /** A pair that keeps off the account. */
  lemma PairTax(s: State, s': State, id: nat, h: Header, d: Account, c: Account, x: int, dd: string, cd: string, at: int,
                a: Account, store: Option<nat>)
    requires Inv(s) && TaxInv(s, a) && d.id != a.id && c.id != a.id && id >= s.next
    requires s'.chart == s.chart && s'.expenses == s.expenses
    requires s'.journals == s.journals + [NewJournal(id, h, Pair(d, c, x, dd, cd, at), at)]
    ensures TaxInv(s', a) && StillOwed(s', a.id, store) == StillOwed(s, a.id, store)
  {
    var j := NewJournal(id, h, Pair(d, c, x, dd, cd, at), at);
    PairUntouched(d, c, x, dd, cd, at, id, h, a.id);
    AppendTaxInv(s, s', j, a);
    UntouchedKeeps(s, s', j, a, store);
  }

  // ---- each request ----

  lemma OpenReceivableTax(s: State, number: string, amount: real, to: Option<nat>, now: int, a: Account, store: Option<nat>)
    requires Inv(s) && TaxInv(s, a) && CreateReceivable(s, number, amount, to, now).Ok?
    ensures var s' := CreateReceivable(s, number, amount, to, now).value;
            TaxInv(s', a) && StillOwed(s', a.id, store) == StillOwed(s, a.id, store)
  {
    var s' := CreateReceivable(s, number, amount, to, now).value;
    var recv, rev, h, dd, cd := ReceivableShape(s, number, amount, to, now);
    PairTax(s, s', s.next + 1, h, recv, rev, Round(amount), dd, cd, now, a, store);
  }

  lemma OpenPayableTax(s: State, number: string, amount: real, to: Option<nat>, category: string, now: int, a: Account, store: Option<nat>)
    requires Inv(s) && TaxInv(s, a) && CreatePayable(s, number, amount, to, category, now).Ok?
    ensures var s' := CreatePayable(s, number, amount, to, category, now).value;
            TaxInv(s', a) && StillOwed(s', a.id, store) == StillOwed(s, a.id, store)
  {
    var s' := CreatePayable(s, number, amount, to, category, now).value;
    var exp, pay, h := PayableShape(s, number, amount, to, category, now);
    PairTax(s, s', s.next + 1, h, exp, pay, Round(amount), number, number, now, a, store);
  }

  lemma ReceivePaymentTax(s: State, id: nat, x: real, now: int, a: Account, store: Option<nat>)
    requires Inv(s) && TaxInv(s, a) && PayReceivable(s, id, x, false, now).Ok?
    ensures var s' := PayReceivable(s, id, x, false, now).value;
            TaxInv(s', a) && StillOwed(s', a.id, store) == StillOwed(s, a.id, store)
  {
    var s' := PayReceivable(s, id, x, false, now).value;
    var i, cash, recv, h, desc := ReceiptShape(s, id, x, false, now);
    PairTax(s, s', s.next + 1, h, cash, recv, Round(x), desc, desc, now, a, store);
  }

  lemma MakePaymentTax(s: State, id: nat, x: real, now: int, a: Account, store: Option<nat>)
    requires Inv(s) && TaxInv(s, a) && PayPayable(s, id, x, now).Ok?
    ensures var s' := PayPayable(s, id, x, now).value;
            TaxInv(s', a) && StillOwed(s', a.id, store) == StillOwed(s, a.id, store)
  {
    var s' := PayPayable(s, id, x, now).value;
    var i, pay, cash, h, desc := DisbursementShape(s, id, x, now);
    PairTax(s, s', s.next + 1, h, pay, cash, Round(x), desc, desc, now, a, store);
  }

  lemma SpendTax(s: State, category: string, desc: string, amount: real, to: Option<nat>, now: int, a: Account, store: Option<nat>)
    requires Inv(s) && TaxInv(s, a) && CreateExpense(s, category, desc, amount, to, now).Ok?
    ensures var s' := CreateExpense(s, category, desc, amount, to, now).value;
            TaxInv(s', a) && StillOwed(s', a.id, store) == StillOwed(s, a.id, store)
  {
    var s' := CreateExpense(s, category, desc, amount, to, now).value;
    var exp, cash, h := ExpenseShape(s, category, desc, amount, to, now);
    var j := NewJournal(s.next, h, Pair(exp, cash, Round(amount), desc, desc, now), now);
    PairUntouched(exp, cash, Round(amount), desc, desc, now, s.next, h, a.id);
    UntouchedKeeps(s, s', j, a, store);
    forall k | k in s'.journals
      ensures TaxBooked(k, a.id)
      ensures k.id == s.next ==> k.kind == NoRef
    {
      assert k in s.journals || k == j;
    }
  }

  lemma RemitTaxStep(s: State, code: string, x: real, payBy: string, from: Option<nat>, now: int, a: Account, store: Option<nat>)
    requires Inv(s) && TaxInv(s, a) && RemitTax(s, code, x, payBy, from, now).Ok? && store.Some?
    ensures var s' := RemitTax(s, code, x, payBy, from, now).value;
            && TaxInv(s', a)
            && StillOwed(s', a.id, store) == StillOwed(s, a.id, store) - (if a.code == code && from == store then Round(x) else 0)
  {
    var s' := RemitTax(s, code, x, payBy, from, now).value;
    var tax, cash := RemitShape(s, code, x, payBy, from, now);
    CreditAccountCode(s.chart, payBy);
    var j := NewJournal(s.next, RemitHeader(from), Pair(tax, cash, Round(x), "Tax remitted", "Paid out", now), now);
    AppendTaxInv(s, s', j, a);
    AppendOwed(s, s', j, a.id, store);
    PairOn(tax, cash, Round(x), "Tax remitted", "Paid out", now, a.id);
  }

  lemma SaleOnlyCredits(chart: seq<Account>, sale: Sale, plan: seq<Planned>, clock: nat -> int, a: Account, j: Journal)
    requires OwnTaxAccount(chart, a) && Shaped(sale, plan) && NonNegativeTaxes(sale) && Resolvable(chart, plan)
    requires j.lines == SaleLines(chart, plan, clock)
    ensures OnlyCredits(j, a.id)
  {
    RoundWhole(0);
    forall l | l in j.lines && l.account == a.id
      ensures l.debit == 0 && l.credit >= 0
    {
      var k :| 0 <= k < |plan| && j.lines[k] == l;
      var b := Resolve(chart, plan, plan[k].code).value;
      assert b in chart && b.id == a.id;
      assert b.code == a.code && a.code != CASH && plan[k].code == a.code;
      assert k > 0;
    }
  }

  lemma SellTax(s: State, sale: Sale, plan: seq<Planned>, clock: nat -> int, a: Account, store: Option<nat>)
    requires Inv(s) && TaxInv(s, a) && PostPlanned(s, sale, plan, clock).Ok? && Shaped(sale, plan) && NonNegativeTaxes(sale)
    ensures var s' := PostPlanned(s, sale, plan, clock).value;
            TaxInv(s', a) && StillOwed(s', a.id, store) >= StillOwed(s, a.id, store)
  {
    var s' := PostPlanned(s, sale, plan, clock).value;
    var j := NewJournal(s.next, SaleHeader(sale), SaleLines(s.chart, plan, clock), clock(|plan|));
    SaleOnlyCredits(s.chart, sale, plan, clock, a, j);
    AppendTaxInv(s, s', j, a);
    AppendOwed(s, s', j, a.id, store);
    OnlyCreditsSums(j, a.id, store);
  }

  /** Retagging journals the account does not appear in moves none of its tax between stores. */
  lemma RetagTax(s: State, s': State, m: Journal -> Journal, a: Account, store: Option<nat>)
    requires TaxInv(s, a) && s'.chart == s.chart && s'.journals == Map(s.journals, m)
    requires forall j :: m(j).lines == j.lines && m(j).kind == j.kind && m(j).id == j.id
    requires forall j :: j in s.journals && m(j) != j ==> Untouched(j, a.id)
    requires forall e' :: e' in s'.expenses ==> exists e :: e in s.expenses && e.journal == e'.journal
    ensures TaxInv(s', a) && StillOwed(s', a.id, store) == StillOwed(s, a.id, store)
  {
    forall j | j in s.journals
      ensures JCredit(a.id, store)(j) == JCredit(a.id, store)(m(j))
      ensures JDebit(a.id, store)(j) == JDebit(a.id, store)(m(j))
    {
      if m(j) != j {
        UntouchedSums(j, a.id, store);
        UntouchedSums(m(j), a.id, store);
      }
    }
    SumMap(s.journals, m, JCredit(a.id, store), JCredit(a.id, store));
    SumMap(s.journals, m, JDebit(a.id, store), JDebit(a.id, store));
    forall j' | j' in s'.journals
      ensures exists j :: j in s.journals && m(j) == j'
    {
      var k :| 0 <= k < |s'.journals| && s'.journals[k] == j';
      assert s.journals[k] in s.journals;
    }
  }

  lemma MoveCostTax(s: State, id: nat, to: Option<nat>, a: Account, store: Option<nat>)
    requires Inv(s) && TaxInv(s, a) && MoveExpense(s, id, to).Ok?
    ensures var s' := MoveExpense(s, id, to).value;
            TaxInv(s', a) && StillOwed(s', a.id, store) == StillOwed(s, a.id, store)
  {
    var s' := MoveExpense(s, id, to).value;
    var i := FindExpense(s.expenses, id).value;
    assert s.expenses[i] in s.expenses;
    RetagTax(s, s', RetagOne(s.expenses[i].journal, to), a, store);
  }

  lemma DropTax(s: State, id: nat, a: Account)
    requires TaxInv(s, a) && DeleteAccount(s, id).Ok?
    ensures TaxInv(DeleteAccount(s, id).value, a)
  {
    FilterIn(s.chart, Not(id));
  }

  function RemittedBy(s: State, op: Op, a: Account, store: Option<nat>): int {
    if op.Remit? && op.code == a.code && op.store == store && Step(s, op).Ok? then Round(op.amount) else 0
  }

  ghost predicate TaxedFairly(op: Op) {
    op.Sell? ==> op.sale.total >= 0.0 && NonNegativeTaxes(op.sale)
  }

  /** One request lowers what a store owes on a tax account only by remitting it from that store. */
  lemma DocumentTax(s: State, op: Op, a: Account, store: Option<nat>)
    requires Inv(s) && TaxInv(s, a) && Document(op) && Step(s, op).Ok?
    ensures TaxInv(Next(s, op), a) && StillOwed(Next(s, op), a.id, store) == StillOwed(s, a.id, store)
  {
    match op
    case OpenReceivable(number, amount, to, now) => OpenReceivableTax(s, number, amount, to, now, a, store);
    case OpenPayable(number, amount, to, category, now) => OpenPayableTax(s, number, amount, to, category, now, a, store);
    case ReceivePayment(row, amount, now) => ReceivePaymentTax(s, row, amount, now, a, store);
    case MakePayment(row, amount, now) => MakePaymentTax(s, row, amount, now, a, store);
  }

  lemma MoveArTax(s: State, row: nat, to: Option<nat>, a: Account, store: Option<nat>)
    requires TaxInv(s, a) && MoveReceivable(s, row, to).Ok?
    ensures var s' := MoveReceivable(s, row, to).value; TaxInv(s', a) && StillOwed(s', a.id, store) == StillOwed(s, a.id, store)
  {
    RetagTax(s, MoveReceivable(s, row, to).value, Retag(row, ReceivableRef, ArPaymentRef, to), a, store);
  }

  lemma MoveApTax(s: State, row: nat, to: Option<nat>, a: Account, store: Option<nat>)
    requires TaxInv(s, a) && MovePayable(s, row, to).Ok?
    ensures var s' := MovePayable(s, row, to).value; TaxInv(s', a) && StillOwed(s', a.id, store) == StillOwed(s, a.id, store)
  {
    RetagTax(s, MovePayable(s, row, to).value, Retag(row, PayableRef, ApPaymentRef, to), a, store);
  }

  lemma MoveTax(s: State, op: Op, a: Account, store: Option<nat>)
    requires Inv(s) && TaxInv(s, a) && (op.MoveAr? || op.MoveAp? || op.MoveCost? || op.DropAccount?) && Step(s, op).Ok?
    ensures TaxInv(Next(s, op), a) && StillOwed(Next(s, op), a.id, store) == StillOwed(s, a.id, store)
  {
    match op
    case MoveAr(row, to) => MoveArTax(s, row, to, a, store);
    case MoveAp(row, to) => MoveApTax(s, row, to, a, store);
    case MoveCost(expense, to) => MoveCostTax(s, expense, to, a, store);
    case DropAccount(account) => DropTax(s, account, a);
  }

  lemma StepTax(s: State, op: Op, a: Account, store: Option<nat>)
    requires Inv(s) && TaxInv(s, a) && TaxedFairly(op) && store.Some?
    ensures TaxInv(Next(s, op), a)
    ensures StillOwed(Next(s, op), a.id, store) >= StillOwed(s, a.id, store) - RemittedBy(s, op, a, store)
    ensures op.Remit? ==> StillOwed(Next(s, op), a.id, store) == StillOwed(s, a.id, store) - RemittedBy(s, op, a, store)
  {
    if Step(s, op).Ok? {
      if Document(op) {
        DocumentTax(s, op, a, store);
      } else {
        match op
        case Spend(category, desc, amount, to, now) => SpendTax(s, category, desc, amount, to, now, a, store);
        case Sell(sale, clock) =>
          RoundIsNearest();
          PlanIsShaped(Round, sale);
          SellTax(s, sale, Plan(Round, sale), clock, a, store);
        case Remit(code, amount, payBy, from, now) => RemitTaxStep(s, code, amount, payBy, from, now, a, store);
        case _ => MoveTax(s, op, a, store);
      }
    }
  }

  /** How far a serial run can overdraw a tax account: not at all in whole kobo, one kobo at most otherwise. */
  function Overdraft(whole: bool): int {
    if whole then 0 else 1
  }

  /** The check against what is owed, seen through the rounding of the stored amount. */
  lemma CeilingHolds(s: State, op: Op, a: Account, store: Option<nat>, whole: bool)
    requires Inv(s) && TaxInv(s, a) && StillOwed(s, a.id, store) >= -Overdraft(whole)
    requires op.Remit? && whole ==> Whole(op.amount)
    ensures StillOwed(s, a.id, store) - RemittedBy(s, op, a, store) >= -Overdraft(whole)
  {
    if op.Remit? && op.code == a.code && op.store == store && Step(s, op).Ok? {
      var owed := StillOwed(s, a.id, store);
      assert AccountByCode(s.chart, op.code).value.id == a.id;
      assert 0.0 < op.amount <= owed as real + 0.9;
      if whole {
        RoundWhole(op.amount.Floor);
      }
    }
  }

  lemma {:induction false} TaxOverRuns(s: State, ops: seq<Op>, a: Account, store: Option<nat>, whole: bool)
    requires Inv(s) && TaxInv(s, a) && store.Some?
    requires forall op :: op in ops ==> TaxedFairly(op) && (op.Remit? && whole ==> Whole(op.amount))
    requires StillOwed(s, a.id, store) >= -Overdraft(whole)
    ensures TaxInv(Run(s, ops), a)
    ensures StillOwed(Run(s, ops), a.id, store) >= -Overdraft(whole)
    decreases |ops|
  {
    if ops != [] {
      CeilingHolds(s, ops[0], a, store, whole);
      StepTax(s, ops[0], a, store);
      StepKeepsInv(s, ops[0]);
      TaxOverRuns(Next(s, ops[0]), ops[1..], a, store, whole);
    }
  }

  // ---- what the slack of the check lets through ----

  /** Half a kobo or more above what its store owes: the check lets it pass up to 0.9, and it is stored a kobo too high. */
  predicate Exceeds(s: State, op: Op, a: Account, store: Option<nat>) {
    && op.Remit? && op.code == a.code && op.store == store && Step(s, op).Ok?
    && op.amount >= StillOwed(s, a.id, store) as real + 0.5
  }

  lemma RoundsAbove(x: real, n: int)
    requires x > 0.0 && n >= 0
    ensures Round(x) > n <==> x >= n as real + 0.5
  {
    assert x + 0.5 >= (n + 1) as real <==> (x + 0.5).Floor >= n + 1;
  }

  /** One request overdraws the account of a store exactly when it is such a remittance. */
  lemma OverdrawsIff(s: State, op: Op, a: Account, store: Option<nat>)
    requires Inv(s) && TaxInv(s, a) && TaxedFairly(op) && store.Some? && StillOwed(s, a.id, store) >= 0
    ensures StillOwed(Next(s, op), a.id, store) < 0 <==> Exceeds(s, op, a, store)
  {
    StepTax(s, op, a, store);
    if op.Remit? && op.code == a.code && op.store == store && Step(s, op).Ok? {
      RoundsAbove(op.amount, StillOwed(s, a.id, store));
    }
  }

  /** The account owes nothing negative at any point of the run. */
  ghost predicate NeverOverdrawn(s: State, ops: seq<Op>, a: Account, store: Option<nat>)
    decreases |ops|
  {
    StillOwed(s, a.id, store) >= 0 && (ops == [] || NeverOverdrawn(Next(s, ops[0]), ops[1..], a, store))
  }

  ghost predicate NoneExceeds(s: State, ops: seq<Op>, a: Account, store: Option<nat>)
    decreases |ops|
  {
    ops == [] || (!Exceeds(s, ops[0], a, store) && NoneExceeds(Next(s, ops[0]), ops[1..], a, store))
  }

  lemma {:induction false} NeverOverdrawnIff(s: State, ops: seq<Op>, a: Account, store: Option<nat>)
    requires Inv(s) && TaxInv(s, a) && store.Some? && StillOwed(s, a.id, store) >= 0
    requires forall op :: op in ops ==> TaxedFairly(op)
    ensures NeverOverdrawn(s, ops, a, store) <==> NoneExceeds(s, ops, a, store)
    decreases |ops|
  {
    if ops != [] {
      OverdrawsIff(s, ops[0], a, store);
      StepTax(s, ops[0], a, store);
      StepKeepsInv(s, ops[0]);
      if !Exceeds(s, ops[0], a, store) {
        NeverOverdrawnIff(Next(s, ops[0]), ops[1..], a, store);
      }
    }
  }

  lemma {:induction false} WholeNeverExceeds(s: State, ops: seq<Op>, a: Account, store: Option<nat>)
    requires Inv(s) && TaxInv(s, a) && store.Some? && StillOwed(s, a.id, store) >= 0
    requires forall op :: op in ops ==> TaxedFairly(op) && (op.Remit? ==> Whole(op.amount))
    ensures NoneExceeds(s, ops, a, store)
    decreases |ops|
  {
    if ops != [] {
      OverdrawsIff(s, ops[0], a, store);
      CeilingHolds(s, ops[0], a, store, true);
      StepTax(s, ops[0], a, store);
      StepKeepsInv(s, ops[0]);
      WholeNeverExceeds(Next(s, ops[0]), ops[1..], a, store);
    }
  }

  /**
   Conservation over every serial run from an empty ledger, per account only taxes
   use and per store: what is still owed is what was collected less what was
   remitted. It stays non-negative throughout exactly when no accepted remittance
   exceeds what the store owes by half a kobo or more, as none does in whole kobo;
   and it never falls below minus one kobo.
   */
  lemma TaxConserved(chart: seq<Account>, taxes: seq<Tax>, next: nat, ops: seq<Op>, a: Account, store: nat, whole: bool)
    requires ChartOk(chart) && OwnTaxAccount(chart, a)
    requires forall op :: op in ops ==> TaxedFairly(op) && (op.Remit? && whole ==> Whole(op.amount))
    ensures var s0 := Empty(chart, taxes, next);
            var s := Run(s0, ops);
            && StillOwed(s, a.id, Some(store)) == Collected(s, a.id, Some(store)) - Remitted(s, a.id, Some(store))
            && StillOwed(s, a.id, Some(store)) >= -Overdraft(whole)
            && (NeverOverdrawn(s0, ops, a, Some(store)) <==> NoneExceeds(s0, ops, a, Some(store)))
            && (whole ==> NeverOverdrawn(s0, ops, a, Some(store)))
  {
    var s0 := Empty(chart, taxes, next);
    EmptyIsSound(chart, taxes, next);
    TaxOverRuns(s0, ops, a, Some(store), whole);
    OwedIsCollectedLessRemitted(Run(s0, ops), a, Some(store));
    NeverOverdrawnIff(s0, ops, a, Some(store));
    if whole {
      WholeNeverExceeds(s0, ops, a, Some(store));
    }
  }

  /** 100.8 is accepted against the 100 store 1 owes, and leaves it owing minus one. */
  lemma SlackOverdraws()
    ensures StillOwed(SampleBooks(), 2, Some(1)) == 100
    ensures RemitTax(SampleBooks(), VAT, 100.8, "cash", Some(1), 5).Ok?
    ensures StillOwed(RemitTax(SampleBooks(), VAT, 100.8, "cash", Some(1), 5).value, 2, Some(1)) == -1
  {
    var s := SampleBooks();
    SampleOwes();
    SampleCodes();
    RoundsTo101();
    RemittanceEffect(s, TaxAccount(), CashAccount(), 100.8, Some(1), 5, 2, Some(1));
    assert RemitTax(s, VAT, 100.8, "cash", Some(1), 5) == PostRemittance(s, TaxAccount(), CashAccount(), 100.8, Some(1), 5);
  }

  lemma RoundsTo101()
    ensures Round(100.8) == 101
  {
    assert (100.8 + 0.5).Floor == 101;
  }

  lemma SampleCodes()
    ensures var s := SampleBooks();
            && Listed(s.taxes, VAT)
            && AccountByCode(s.chart, VAT) == Some(TaxAccount()) && AccountByCode(s.chart, CASH) == Some(CashAccount())
  {
    var s := SampleBooks();
    CodesDiffer();
    assert CASH[0] != VAT[0];
    assert s.chart[1..][0] == TaxAccount() && AccountByCode(s.chart[1..], VAT) == Some(TaxAccount());
    assert s.taxes[0] in s.taxes && VAT != "";
  }
}
