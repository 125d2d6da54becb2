/**
 What each request books, account by account: which account is debited, which
 is credited, by how much, and with what reference, store and stamp.
 */
module Effects {
  import opened Results
  import opened Sums
  import opened Ledger
  import opened Posting
  import opened SubLedger
  import opened Sales
  import opened SalePosting
  import opened Taxes
  import opened Fallback

  /** One more journal, posted at `now`, which moves `x` from the account with code `c` to the one with code `d`. */
  ghost predicate Books(s: State, s': State, d: string, c: string, x: int, kind: RefKind, ref: Option<nat>, store: Option<nat>, now: int) {
    && |s'.journals| == |s.journals| + 1
    && s'.journals[..|s.journals|] == s.journals
    && s'.chart == s.chart
    && var j := s'.journals[|s.journals|];
       && j.kind == kind && j.ref == ref && j.store == store && j.posted && j.at == Some(now)
       && forall a :: a in s.chart ==> JOn(a.id)(j) == (if a.code == d then x else 0) - (if a.code == c then x else 0)
  }

  lemma PairBooks(s: State, s': State, id: nat, h: Header, d: Account, c: Account, x: int, dd: string, cd: string, now: int)
    requires ChartOk(s.chart) && d in s.chart && c in s.chart && s'.chart == s.chart
    requires s'.journals == s.journals + [NewJournal(id, h, Pair(d, c, x, dd, cd, now), now)]
    ensures Books(s, s', d.code, c.code, x, h.kind, h.ref, h.store, now)
  {
    var j := s'.journals[|s.journals|];
    forall a | a in s.chart
      ensures JOn(a.id)(j) == (if a.code == d.code then x else 0) - (if a.code == c.code then x else 0)
    {
      PairNet(d, c, x, dd, cd, now, a.id);
      SameIdSameAccount(s.chart, a, d);
      SameIdSameAccount(s.chart, a, c);
    }
  }

  /** One more row, on which nothing has been paid and the whole amount is owed. */
  ghost predicate OpensRow(rows: seq<Row>, rows': seq<Row>, id: nat, number: string, x: int, store: Option<nat>, now: int, category: string) {
    && |rows'| == |rows| + 1 && rows'[..|rows|] == rows
    && var r := rows'[|rows|];
       && r.id == id && r.number == number && r.store == store && r.createdAt == now && r.category == category
       && r.amount == x && r.balance == x && r.paid == 0 && r.status == Pending
  }

  lemma ReceivableBooks(s: State, number: string, amount: real, store: Option<nat>, now: int)
    requires ChartOk(s.chart) && CreateReceivable(s, number, amount, store, now).Ok?
    ensures var s' := CreateReceivable(s, number, amount, store, now).value;
            && Books(s, s', RECEIVABLE, REVENUE, Round(amount), ReceivableRef, Some(s.next), store, now)
            && OpensRow(s.ar, s'.ar, s.next, number, Round(amount), store, now, "") && s'.ap == s.ap
  {
    var recv, rev, h, dd, cd := ReceivableShape(s, number, amount, store, now);
    PairBooks(s, CreateReceivable(s, number, amount, store, now).value, s.next + 1, h, recv, rev, Round(amount), dd, cd, now);
  }

  lemma PayableBooks(s: State, number: string, amount: real, store: Option<nat>, category: string, now: int)
    requires ChartOk(s.chart) && CreatePayable(s, number, amount, store, category, now).Ok?
    ensures var s' := CreatePayable(s, number, amount, store, category, now).value;
            && Books(s, s', ExpenseCode(category), PAYABLE, Round(amount), PayableRef, Some(s.next), store, now)
            && OpensRow(s.ap, s'.ap, s.next, number, Round(amount), store, now, category) && s'.ar == s.ar
  {
    var exp, pay, h := PayableShape(s, number, amount, store, category, now);
    PairBooks(s, CreatePayable(s, number, amount, store, category, now).value, s.next + 1, h, exp, pay, Round(amount),
              number, number, now);
  }

  /** A receivable payment debits cash and credits 1100, and is tagged with no store. */
  lemma ReceivablePaymentBooks(s: State, id: nat, x: real, now: int)
    requires ChartOk(s.chart) && PayReceivable(s, id, x, false, now).Ok?
    ensures var s' := PayReceivable(s, id, x, false, now).value;
            Books(s, s', CASH, RECEIVABLE, Round(x), ArPaymentRef, Some(id), None, now)
  {
    var i, cash, recv, h, desc := ReceiptShape(s, id, x, false, now);
    PairBooks(s, PayReceivable(s, id, x, false, now).value, s.next + 1, h, cash, recv, Round(x), desc, desc, now);
  }

  lemma PayablePaymentBooks(s: State, id: nat, x: real, now: int)
    requires ChartOk(s.chart) && PayPayable(s, id, x, now).Ok?
    ensures var s' := PayPayable(s, id, x, now).value;
            Books(s, s', PAYABLE, CASH, Round(x), ApPaymentRef, Some(id), None, now)
  {
    var i, pay, cash, h, desc := DisbursementShape(s, id, x, now);
    PairBooks(s, PayPayable(s, id, x, now).value, s.next + 1, h, pay, cash, Round(x), desc, desc, now);
  }

  /** An expense debits its category's account, credits cash, and its row names the journal it posted. */
  lemma ExpenseBooks(s: State, category: string, desc: string, amount: real, store: Option<nat>, now: int)
    requires ChartOk(s.chart) && CreateExpense(s, category, desc, amount, store, now).Ok?
    ensures var s' := CreateExpense(s, category, desc, amount, store, now).value;
            && Books(s, s', ExpenseCode(category), CASH, Round(amount), NoRef, None, store, now)
            && |s'.expenses| == |s.expenses| + 1
            && var e := s'.expenses[|s.expenses|];
               e.journal == s'.journals[|s.journals|].id && e.store == store && e.amount == Round(amount) && e.category == category
  {
    var exp, cash, h := ExpenseShape(s, category, desc, amount, store, now);
    PairBooks(s, CreateExpense(s, category, desc, amount, store, now).value, s.next, h, exp, cash, Round(amount), desc, desc, now);
  }

  /** A remittance debits the tax account and credits bank when asked and present, cash otherwise. */
  lemma RemittanceBooks(s: State, code: string, x: real, payBy: string, store: Option<nat>, now: int)
    requires ChartOk(s.chart) && RemitTax(s, code, x, payBy, store, now).Ok?
    ensures var s' := RemitTax(s, code, x, payBy, store, now).value;
            var from := if payBy == "bank" && (exists a :: a in s.chart && a.code == BANK) then BANK else CASH;
            Books(s, s', code, from, Round(x), TaxRemittanceRef, None, store, now)
  {
    var tax, from := RemitShape(s, code, x, payBy, store, now);
    PairBooks(s, RemitTax(s, code, x, payBy, store, now).value, s.next, RemitHeader(store), tax, from, Round(x),
              "Tax remitted", "Paid out", now);
  }

  // ---- when a request is refused ----

  ghost predicate Has(s: State, code: string) {
    exists a :: a in s.chart && a.code == code
  }

  lemma HasIsFound(s: State, code: string)
    ensures Has(s, code) <==> AccountByCode(s.chart, code).Some?
  {
  }

  /** fn_post_journal refuses entries whose totals differ by more than 0.01 naira, or one of which names no account, and nothing else. */
  lemma PostingRefusedIff(s: State, h: Header, es: seq<Entry>, now: int)
    ensures var off := RSum(es, Debited()) - RSum(es, Credited());
            && (PostJournal(s, h, es, now) == Err(Unbalanced) <==> off > 1.0 || off < -1.0)
            && (PostJournal(s, h, es, now).Err? <==> off > 1.0 || off < -1.0 || exists e :: e in es && e.account.None?)
  {
  }

  /** An account goes, and it alone, exactly when it is in the chart and no line of any journal is booked to it. */
  lemma DeletionRefusedIff(s: State, id: nat)
    ensures DeleteAccount(s, id).Err? <==>
              (forall a :: a in s.chart ==> a.id != id) || exists j, l :: j in s.journals && l in j.lines && l.account == id
    ensures DeleteAccount(s, id).Ok? ==>
              var s' := DeleteAccount(s, id).value;
              s' == s.(chart := s'.chart) && forall a :: a in s'.chart <==> a in s.chart && a.id != id
  {
    FilterIn(s.chart, Not(id));
    if j, l :| j in s.journals && l in j.lines && l.account == id {
      assert SubLedger.Uses(j, id);
    }
  }

  /** The reason given for refusing a new document holds. */
  ghost predicate TrueReason(res: Result<State>, amount: real, store: Option<nat>, missing: bool) {
    match res
    case Ok(_) => true
    case Err(NotPositive) => amount <= 0.0
    case Err(StoreRequired) => store.None?
    case Err(AccountMissing) => missing
    case Err(_) => false
  }

  /** A receivable is refused for these reasons and no other, and the reason given holds: its posting never fails. */
  lemma ReceivableRefusedIff(s: State, number: string, amount: real, store: Option<nat>, now: int)
    ensures CreateReceivable(s, number, amount, store, now).Err? <==>
              amount <= 0.0 || store.None? || !Has(s, RECEIVABLE) || !Has(s, REVENUE)
    ensures TrueReason(CreateReceivable(s, number, amount, store, now), amount, store, !Has(s, RECEIVABLE) || !Has(s, REVENUE))
  {
    match (AccountByCode(s.chart, RECEIVABLE), AccountByCode(s.chart, REVENUE)) {
      case (Some(recv), Some(rev)) =>
        PostPair(s.(ar := s.ar + [OpenRow(s.next, number, Round(amount), store, now, "")], next := s.next + 1),
                 Header("Receivable: " + number, Some(s.next), ReceivableRef, store), recv, rev, amount,
                 "Receivable: " + number, "Revenue: " + number, now);
      case _ =>
    }
  }

  lemma PayableRefusedIff(s: State, number: string, amount: real, store: Option<nat>, category: string, now: int)
    ensures CreatePayable(s, number, amount, store, category, now).Err? <==>
              amount <= 0.0 || store.None? || !Has(s, PAYABLE) || !Has(s, ExpenseCode(category))
    ensures TrueReason(CreatePayable(s, number, amount, store, category, now), amount, store,
                       !Has(s, PAYABLE) || !Has(s, ExpenseCode(category)))
  {
    match (AccountByCode(s.chart, PAYABLE), AccountByCode(s.chart, ExpenseCode(category))) {
      case (Some(pay), Some(exp)) =>
        PostPair(s.(ap := s.ap + [OpenRow(s.next, number, Round(amount), store, now, category)], next := s.next + 1),
                 Header("Payable: " + number, Some(s.next), PayableRef, store), exp, pay, amount, number, number, now);
      case _ =>
    }
  }

  lemma ExpenseRefusedIff(s: State, category: string, desc: string, amount: real, store: Option<nat>, now: int)
    ensures CreateExpense(s, category, desc, amount, store, now).Err? <==>
              amount <= 0.0 || store.None? || !Has(s, ExpenseCode(category)) || !Has(s, CASH)
    ensures TrueReason(CreateExpense(s, category, desc, amount, store, now), amount, store,
                       !Has(s, ExpenseCode(category)) || !Has(s, CASH))
  {
    match (AccountByCode(s.chart, ExpenseCode(category)), AccountByCode(s.chart, CASH)) {
      case (Some(exp), Some(cash)) =>
        PostPair(s, Header("Expense: " + category + " - " + desc, None, NoRef, store), exp, cash, amount, desc, desc, now);
      case _ =>
    }
  }

  /** A remittance is refused exactly for a bad amount or method, no store, an account no active tax uses, more than is owed, or nowhere to pay from. */
  lemma RemittanceRefusedIff(s: State, code: string, x: real, payBy: string, store: Option<nat>, now: int)
    ensures RemitTax(s, code, x, payBy, store, now).Err? <==>
              || x <= 0.0 || (payBy != "cash" && payBy != "bank") || store.None?
              || !Listed(s.taxes, code) || !Has(s, code)
              || x > StillOwed(s, AccountByCode(s.chart, code).value.id, store) as real + 0.9
              || !(Has(s, CASH) || (payBy == "bank" && Has(s, BANK)))
    ensures match RemitTax(s, code, x, payBy, store, now)
            case Ok(_) => true
            case Err(NotPositive) => x <= 0.0
            case Err(BadMethod) => payBy != "cash" && payBy != "bank"
            case Err(StoreRequired) => store.None?
            case Err(NoTaxOwed) => !Listed(s.taxes, code) || !Has(s, code)
            case Err(ExceedsOwed) => Has(s, code) && x > StillOwed(s, AccountByCode(s.chart, code).value.id, store) as real
            case Err(AccountMissing) => !Has(s, CASH)
            case Err(_) => false
  {
    HasIsFound(s, code);
    HasIsFound(s, CASH);
    HasIsFound(s, BANK);
    match (AccountByCode(s.chart, code), CreditAccount(s.chart, payBy)) {
      case (Some(tax), Some(from)) => PostPair(s, RemitHeader(store), tax, from, x, "Tax remitted", "Paid out", now);
      case _ =>
    }
  }

  // ---- what a move carries along ----

  /** The document's own journals carry the new store, and nothing else about any journal changes. */
  ghost predicate Carried(js: seq<Journal>, js': seq<Journal>, own: Journal -> bool, store: Option<nat>) {
    && |js'| == |js|
    && forall i :: 0 <= i < |js| ==>
         && js'[i].store == (if own(js[i]) then store else js[i].store)
         && js'[i].(store := None) == js[i].(store := None)
  }

  /** One row carries the new store, and nothing else about any row changes. */
  ghost predicate Rehomed(rows: seq<Row>, rows': seq<Row>, id: nat, store: Option<nat>) {
    && |rows'| == |rows|
    && forall i :: 0 <= i < |rows| ==>
         && rows'[i].store == (if rows[i].id == id then store else rows[i].store)
         && rows'[i].(store := None) == rows[i].(store := None)
  }

  function OwnedBy(id: nat, opening: RefKind, payment: RefKind): Journal -> bool {
    (j: Journal) => j.ref == Some(id) && j.kind in {opening, payment}
  }

  /** Moving a receivable fails only when it is not there; its creation and payment journals go with it, and no others. */
  lemma ReceivableMove(s: State, id: nat, store: Option<nat>)
    requires UniqueRows(s.ar)
    ensures MoveReceivable(s, id, store).Err? <==> forall r :: r in s.ar ==> r.id != id
    ensures MoveReceivable(s, id, store).Ok? ==>
      var s' := MoveReceivable(s, id, store).value;
      && Rehomed(s.ar, s'.ar, id, store) && Carried(s.journals, s'.journals, OwnedBy(id, ReceivableRef, ArPaymentRef), store)
      && s' == s.(ar := s'.ar, journals := s'.journals)
  {
    var found := FindRow(s.ar, id);
    assert found.Some? ==> s.ar[found.value] in s.ar;
  }

  lemma PayableMove(s: State, id: nat, store: Option<nat>)
    requires UniqueRows(s.ap)
    ensures MovePayable(s, id, store).Err? <==> forall r :: r in s.ap ==> r.id != id
    ensures MovePayable(s, id, store).Ok? ==>
      var s' := MovePayable(s, id, store).value;
      && Rehomed(s.ap, s'.ap, id, store) && Carried(s.journals, s'.journals, OwnedBy(id, PayableRef, ApPaymentRef), store)
      && s' == s.(ap := s'.ap, journals := s'.journals)
  {
    var found := FindRow(s.ap, id);
    assert found.Some? ==> s.ap[found.value] in s.ap;
  }

  function WithId(id: nat): Journal -> bool {
    (j: Journal) => j.id == id
  }

  /** Moving an expense takes along exactly the journal it names. */
  lemma ExpenseMove(s: State, id: nat, store: Option<nat>, e: ExpenseRow)
    requires (forall i, k :: 0 <= i < k < |s.expenses| ==> s.expenses[i].id != s.expenses[k].id) && e in s.expenses && e.id == id
    ensures MoveExpense(s, id, store).Ok?
    ensures var s' := MoveExpense(s, id, store).value;
      && e.(store := store) in s'.expenses && (forall x :: x in s.expenses && x.id != id ==> x in s'.expenses)
      && Carried(s.journals, s'.journals, WithId(e.journal), store)
      && s' == s.(expenses := s'.expenses, journals := s'.journals)
  {
    var i := FindExpense(s.expenses, id).value;
    var k :| 0 <= k < |s.expenses| && s.expenses[k] == e;
    var es := MoveExpense(s, id, store).value.expenses;
    assert es[i] in es;
    forall x | x in s.expenses && x.id != id
      ensures x in es
    {
      var m :| 0 <= m < |s.expenses| && s.expenses[m] == x;
      assert es[m] in es;
    }
  }

  // ---- taxes of a sale, account by account ----

  function BucketOn(code: string): Bucket -> int {
    (b: Bucket) => if b.code == code then b.amount else 0
  }

  function TaxOn(code: string): TaxLine -> real {
    (t: TaxLine) => if TaxAccountIs(t.code, code) then t.amount else 0.0
  }

  function TaxLinesTo(ts: seq<TaxLine>, code: string): nat {
    if ts == [] then 0 else (if TaxAccountIs(ts[0].code, code) then 1 else 0) + TaxLinesTo(ts[1..], code)
  }

  lemma AddTaxOn(round: real -> int, g: seq<Bucket>, t: TaxLine, code: string, whole: bool)
    requires Nearest(round) && (whole ==> Whole(t.amount))
    ensures Near(Sum(AddTax(round, g, t), BucketOn(code)) as real, Sum(g, BucketOn(code)) as real + TaxOn(code)(t),
                 Slack(whole, if TaxAccountIs(t.code, code) then 1 else 0))
  {
    match FindBucket(g, TaxCode(t))
    case None =>
      RoundError(round, 0, t.amount, whole);
      assert 0 as real + t.amount == t.amount;
      SumAppend(g, Bucket(TaxCode(t), round(t.amount), [t.name]), BucketOn(code));
    case Some(i) =>
      RoundError(round, g[i].amount, t.amount, whole);
      SumUpdate(g, i, AddTax(round, g, t)[i], BucketOn(code));
  }

  /** Each account is credited with its own tax lines: exactly in whole kobo, within half a kobo per line of that account otherwise. */
  lemma {:induction false} EachAccountItsOwnTaxes(round: real -> int, g: seq<Bucket>, ts: seq<TaxLine>, code: string, whole: bool)
    requires Nearest(round) && (whole ==> WholeTaxes(ts))
    ensures Near(Sum(GroupInto(round, g, ts), BucketOn(code)) as real, Sum(g, BucketOn(code)) as real + RSum(ts, TaxOn(code)),
                 Slack(whole, TaxLinesTo(ts, code)))
    decreases |ts|
  {
    if ts != [] {
      var g' := AddTax(round, g, ts[0]);
      AddTaxOn(round, g, ts[0], code, whole);
      EachAccountItsOwnTaxes(round, g', ts[1..], code, whole);
      var here := if TaxAccountIs(ts[0].code, code) then 1 else 0;
      assert Slack(whole, TaxLinesTo(ts, code)) == Slack(whole, here) + Slack(whole, TaxLinesTo(ts[1..], code));
    }
  }

  // ---- a sale, account by account ----

  function StoredValue(code: string, p: Planned): int {
    if p.code == code then Round(p.debit) - Round(p.credit) else 0
  }

  function StoredOn(code: string): Planned -> int {
    (p: Planned) => StoredValue(code, p)
  }

  function TaxCredit(sale: Sale, code: string): int {
    if TaxesOf(sale) <= 0.0 then 0
    else if sale.taxes != [] then Sum(GroupInto(Round, [], sale.taxes), BucketOn(code))
    else if code == VAT then Round(sale.taxAmount)
    else 0
  }

  /** Debits less credits a sale leaves on the account with this code. */
  function SaleOn(sale: Sale, code: string): int {
    var cost := GoodsCost(sale.items);
    var money := if code == MoneyAccount(sale) then Round(sale.total) else 0;
    var revenue := if code == REVENUE then Round(sale.total - TaxesOf(sale)) else 0;
    var goods := if cost <= 0.0 then 0 else if code == COGS then Round(cost) else if code == INVENTORY then -Round(cost) else 0;
    money - revenue - TaxCredit(sale, code) + goods
  }

  lemma {:induction false} BucketEntriesOn(g: seq<Bucket>, number: string, code: string)
    ensures Sum(Map(g, BucketEntry(number)), StoredOn(code)) == -Sum(g, BucketOn(code))
  {
    if g != [] {
      BucketEntriesOn(g[1..], number, code);
      RoundWhole(0);
      RoundWhole(g[0].amount);
      assert Map(g, BucketEntry(number))[1..] == Map(g[1..], BucketEntry(number));
    }
  }

  lemma TaxEntriesOn(sale: Sale, code: string)
    ensures Sum(TaxEntries(Round, sale), StoredOn(code)) == -TaxCredit(sale, code)
  {
    RoundWhole(0);
    TaxTotalIs(sale);
    if TaxTotal(Round, sale) > 0.0 {
      if sale.taxes != [] {
        BucketEntriesOn(GroupInto(Round, [], sale.taxes), sale.number, code);
      } else {
        assert TaxEntries(Round, sale)[1..] == [];
        assert Sum(TaxEntries(Round, sale)[1..], StoredOn(code)) == 0;
      }
    }
  }

  lemma MoneyOn(sale: Sale, code: string)
    ensures Sum([MoneyEntry(sale), RevenueEntry(sale, TaxTotal(Round, sale))], StoredOn(code))
         == (if code == MoneyAccount(sale) then Round(sale.total) else 0)
            - (if code == REVENUE then Round(sale.total - TaxesOf(sale)) else 0)
  {
    TaxTotalIs(sale);
    var a, b := MoneyEntry(sale), RevenueEntry(sale, TaxTotal(Round, sale));
    RoundWhole(0);
    DebitIsMoney(sale);
    SumPair(a, b, StoredOn(code));
    assert a.code == MoneyAccount(sale) && b.code == REVENUE;
  }

  lemma GoodsOn(sale: Sale, code: string)
    ensures var cost := GoodsCost(sale.items);
            Sum(CostEntries(sale), StoredOn(code))
            == if cost <= 0.0 then 0 else if code == COGS then Round(cost) else if code == INVENTORY then -Round(cost) else 0
  {
    var c := CostEntries(sale);
    CostIsGoods(sale.items);
    if c != [] {
      RoundWhole(0);
      CodesDifferForGoods();
      SumPair(c[0], c[1], StoredOn(code));
    }
  }

  lemma PlanOn(sale: Sale, code: string)
    ensures Sum(Plan(Round, sale), StoredOn(code)) == SaleOn(sale, code)
  {
    var m, t, c := [MoneyEntry(sale), RevenueEntry(sale, TaxTotal(Round, sale))], TaxEntries(Round, sale), CostEntries(sale);
    SumConcat(m + t, c, StoredOn(code));
    SumConcat(m, t, StoredOn(code));
    MoneyOn(sale, code);
    TaxEntriesOn(sale, code);
    GoodsOn(sale, code);
  }

  lemma CodesDifferForGoods()
    ensures COGS != INVENTORY
  {
    assert COGS[0] == '5' && INVENTORY[0] == '1';
  }

  /** The account with this code gets its own entries, and cash those of a missing 1010 or 1100 as well. */
  function SaleShare(chart: seq<Account>, sale: Sale, code: string): int {
    SaleOn(sale, code)
    + (if code == CASH && FallsBack(chart, sale, BANK) then SaleOn(sale, BANK) else 0)
    + (if code == CASH && FallsBack(chart, sale, RECEIVABLE) then SaleOn(sale, RECEIVABLE) else 0)
  }

  function IfBacked(chart: seq<Account>, sale: Sale, from: string, to: string): Planned -> int {
    (p: Planned) => if to == CASH && FallsBack(chart, sale, from) then StoredValue(from, p) else 0
  }

  function Plus(f: Planned -> int, g: Planned -> int): Planned -> int {
    (p: Planned) => f(p) + g(p)
  }

  function SharedOn(chart: seq<Account>, sale: Sale, code: string): Planned -> int {
    Plus(Plus(StoredOn(code), IfBacked(chart, sale, BANK, code)), IfBacked(chart, sale, RECEIVABLE, code))
  }

  lemma IfBackedSum(chart: seq<Account>, sale: Sale, from: string, to: string)
    ensures Sum(Plan(Round, sale), IfBacked(chart, sale, from, to))
         == if to == CASH && FallsBack(chart, sale, from) then SaleOn(sale, from) else 0
  {
    if to == CASH && FallsBack(chart, sale, from) {
      SumSame(Plan(Round, sale), IfBacked(chart, sale, from, to), StoredOn(from));
      PlanOn(sale, from);
    } else {
      SumZero(Plan(Round, sale), IfBacked(chart, sale, from, to));
    }
  }

  lemma SharedSum(chart: seq<Account>, sale: Sale, code: string)
    ensures Sum(Plan(Round, sale), SharedOn(chart, sale, code)) == SaleShare(chart, sale, code)
  {
    var f, g, h := StoredOn(code), IfBacked(chart, sale, BANK, code), IfBacked(chart, sale, RECEIVABLE, code);
    SumPlus(Plan(Round, sale), Plus(Plus(f, g), h), Plus(f, g), h);
    SumPlus(Plan(Round, sale), Plus(f, g), f, g);
    PlanOn(sale, code);
    IfBackedSum(chart, sale, BANK, code);
    IfBackedSum(chart, sale, RECEIVABLE, code);
  }

  lemma {:induction false} LinesOn(lines: seq<Line>, plan: seq<Planned>, a: nat, f: Planned -> int)
    requires |lines| == |plan|
    requires forall k :: 0 <= k < |plan| ==> OnAccount(a)(lines[k]) == f(plan[k])
    ensures Sum(lines, OnAccount(a)) == Sum(plan, f)
  {
    if plan != [] {
      LinesOn(lines[1..], plan[1..], a, f);
    }
  }

  lemma EntryShare(chart: seq<Account>, sale: Sale, code: string, p: Planned)
    requires InChart(chart, code)
    ensures SharedOn(chart, sale, code)(p)
         == if (if FallsBack(chart, sale, p.code) then CASH else p.code) == code then Round(p.debit) - Round(p.credit) else 0
  {
    CodesDiffer();
    var own, bank, recv := StoredOn(code)(p), IfBacked(chart, sale, BANK, code)(p), IfBacked(chart, sale, RECEIVABLE, code)(p);
    assert SharedOn(chart, sale, code)(p) == own + bank + recv;
    assert p.code != BANK ==> bank == 0;
    assert p.code != RECEIVABLE ==> recv == 0;
    assert FallsBack(chart, sale, p.code) ==> p.code == BANK || p.code == RECEIVABLE;
  }

  lemma LineShare(s: State, sale: Sale, clock: nat -> int, a: Account, k: nat)
    requires ChartOk(s.chart) && a in s.chart && PostSale(s, sale, clock).Ok? && k < |Plan(Round, sale)|
    ensures OnAccount(a.id)(SaleLines(s.chart, Plan(Round, sale), clock)[k]) == SharedOn(s.chart, sale, a.code)(Plan(Round, sale)[k])
  {
    var p := Plan(Round, sale)[k];
    var b := Resolve(s.chart, Plan(Round, sale), p.code).value;
    ResolvesIff(s.chart, sale, p.code);
    SameIdSameAccount(s.chart, a, b);
    EntryShare(s.chart, sale, a.code, p);
  }

  /**
   A posted sale books on every account of the chart exactly its share: the
   total on cash, bank or receivables, revenue net of tax, each tax account its
   own taxes, the cost of goods against inventory, and on cash also the entries
   that fall back to it.
   */
  lemma SaleBooks(s: State, sale: Sale, clock: nat -> int, a: Account)
    requires ChartOk(s.chart) && a in s.chart && PostSale(s, sale, clock).Ok?
    ensures var s' := PostSale(s, sale, clock).value;
            && |s'.journals| == |s.journals| + 1 && s'.journals[..|s.journals|] == s.journals
            && var j := s'.journals[|s.journals|];
               j.kind == SaleRef && j.ref == Some(sale.id) && j.store == sale.store && JOn(a.id)(j) == SaleShare(s.chart, sale, a.code)
  {
    var plan := Plan(Round, sale);
    var lines := SaleLines(s.chart, plan, clock);
    forall k | 0 <= k < |plan|
      ensures OnAccount(a.id)(lines[k]) == SharedOn(s.chart, sale, a.code)(plan[k])
    {
      LineShare(s, sale, clock, a, k);
    }
    LinesOn(lines, plan, a.id, SharedOn(s.chart, sale, a.code));
    SharedSum(s.chart, sale, a.code);
  }
}
