/**
 Receivables, payables and expenses: what each database function and the route
 around it does to the books. A refused request leaves no new state, because
 the request is one transaction.
 */
module SubLedger {
  import opened Results
  import opened Sums
  import opened Ledger
  import opened Posting

  // ---- one row ----

  function OpenRow(id: nat, number: string, amount: int, store: Option<nat>, now: int, category: string): Row {
    Row(id, number, amount, 0, amount, Pending, store, now, category)
  }

  /**
   The part of fn_record_ar_payment and fn_record_ap_payment that runs on the
   locked row. The new figures are computed unrounded and stored as kobo; the
   ledger row must hold a positive amount after rounding.
   */
  function PayRow(r: Row, x: real): Result<Row> {
    if x <= 0.0 then Err(NotPositive)
    else if x > r.balance as real then Err(ExceedsBalance)
    else if Round(x) <= 0 then Err(NotPositive)
    else Ok(r.(paid := Round(r.paid as real + x),
               balance := Round(r.balance as real - x),
               status := if r.balance as real - x <= 0.0 then Paid else Partial))
  }

  /** An amount that ends in exactly half a kobo. */
  predicate Half(x: real) {
    x - x.Floor as real == 0.5
  }

  predicate Whole(x: real) {
    x == x.Floor as real
  }

  function Drift(x: real): int {
    if Half(x) then 1 else 0
  }

  lemma RoundShift(n: int, x: real)
    requires n >= 0 && x >= 0.0
    ensures Round(n as real + x) == n + Round(x)
    ensures x <= n as real ==> Round(n as real - x) == n - Round(x) + Drift(x)
    ensures x <= n as real ==> 0 <= Round(n as real - x) <= n
    ensures Round(x) >= 0
  {
    var f := x.Floor;
    assert Round(x) == if x - f as real >= 0.5 then f + 1 else f;
    assert Round(n as real + x) == if x - f as real >= 0.5 then n + f + 1 else n + f;
    if x <= n as real {
      assert Round(n as real - x) == if x - f as real > 0.5 then n - f - 1 else n - f;
    }
  }

  /**
   What an accepted payment does to a row. The stored paid amount grows by the
   stored payment; the stored balance falls by it, except that a payment ending
   in exactly half a kobo rounds up on both sides and takes one kobo less off.
   */
  lemma PayRowExact(r: Row, x: real)
    requires r.paid >= 0 && PayRow(r, x).Ok?
    ensures var r' := PayRow(r, x).value;
            && r'.paid == r.paid + Round(x)
            && r'.balance == r.balance - Round(x) + Drift(x)
            && 0 <= r'.balance <= r.balance
            && (r'.status == Paid <==> x == r.balance as real)
            && (r'.status == Paid ==> r'.balance == 0)
  {
    RoundShift(r.paid, x);
    RoundShift(r.balance, x);
    RoundWhole(0);
  }

  // ---- receivables ----

  function CreateReceivable(s: State, number: string, amount: real, store: Option<nat>, now: int): Result<State> {
    if amount <= 0.0 then Err(NotPositive)
    else if store.None? then Err(StoreRequired)
    else match (AccountByCode(s.chart, RECEIVABLE), AccountByCode(s.chart, REVENUE))
         case (Some(recv), Some(rev)) =>
           PostJournal(
             s.(ar := s.ar + [OpenRow(s.next, number, Round(amount), store, now, "")], next := s.next + 1),
             Header("Receivable: " + number, Some(s.next), ReceivableRef, store),
             [Dr(recv, amount, "Receivable: " + number), Cr(rev, amount, "Revenue: " + number)], now)
         case _ => Err(AccountMissing)
  }

  /** The SQL half: row, ledger row and refusals. */
  function RecordArPayment(s: State, id: nat, x: real): Result<State> {
    match FindRow(s.ar, id)
    case None => Err(RowNotFound)
    case Some(i) =>
      match PayRow(s.ar[i], x)
      case Err(e) => Err(e)
      case Ok(r) =>
        Ok(s.(ar := s.ar[i := r], arPays := s.arPays + [Payment(s.next, id, Round(x))], next := s.next + 1))
  }

  /**
   The whole request. The SQL function returns no store, so the route posts the
   journal without one; `carry` asks what would happen if it did return it.
   */
  function PayReceivable(s: State, id: nat, x: real, carry: bool, now: int): Result<State> {
    match RecordArPayment(s, id, x)
    case Err(e) => Err(e)
    case Ok(s1) =>
      match (AccountByCode(s.chart, CASH), AccountByCode(s.chart, RECEIVABLE))
      case (Some(cash), Some(recv)) =>
        var r := s.ar[FindRow(s.ar, id).value];
        var desc := "AR payment: " + r.number;
        PostJournal(s1, Header(desc, Some(id), ArPaymentRef, if carry then r.store else None),
                    [Dr(cash, x, desc), Cr(recv, x, desc)], now)
      case _ => Err(AccountMissing)
  }

  // ---- payables ----

  function ExpenseCode(category: string): string {
    if category == "rent" then "5100"
    else if category == "utilities" then "5200"
    else if category == "salaries" then "5300"
    else if category == "supplies" then "5400"
    else if category == "transport" then "5500"
    else if category == "marketing" then "5600"
    else if category == "bank_charges" then "5700"
    else if category == "phone_internet" then "5800"
    else "5900"
  }

  function CreatePayable(s: State, number: string, amount: real, store: Option<nat>, category: string, now: int): Result<State> {
    if amount <= 0.0 then Err(NotPositive)
    else if store.None? then Err(StoreRequired)
    else match (AccountByCode(s.chart, PAYABLE), AccountByCode(s.chart, ExpenseCode(category)))
         case (Some(pay), Some(exp)) =>
           PostJournal(
             s.(ap := s.ap + [OpenRow(s.next, number, Round(amount), store, now, category)], next := s.next + 1),
             Header("Payable: " + number, Some(s.next), PayableRef, store),
             [Dr(exp, amount, number), Cr(pay, amount, number)], now)
         case _ => Err(AccountMissing)
  }

  function RecordApPayment(s: State, id: nat, x: real): Result<State> {
    match FindRow(s.ap, id)
    case None => Err(RowNotFound)
    case Some(i) =>
      match PayRow(s.ap[i], x)
      case Err(e) => Err(e)
      case Ok(r) =>
        Ok(s.(ap := s.ap[i := r], apPays := s.apPays + [Payment(s.next, id, Round(x))], next := s.next + 1))
  }

  function PayPayable(s: State, id: nat, x: real, now: int): Result<State> {
    match RecordApPayment(s, id, x)
    case Err(e) => Err(e)
    case Ok(s1) =>
      match (AccountByCode(s.chart, PAYABLE), AccountByCode(s.chart, CASH))
      case (Some(pay), Some(cash)) =>
        var desc := "AP payment: " + s.ap[FindRow(s.ap, id).value].number;
        PostJournal(s1, Header(desc, Some(id), ApPaymentRef, None),
                    [Dr(pay, x, desc), Cr(cash, x, desc)], now)
      case _ => Err(AccountMissing)
  }

  // ---- expenses ----

  function CreateExpense(s: State, category: string, desc: string, amount: real, store: Option<nat>, now: int): Result<State> {
    if amount <= 0.0 then Err(NotPositive)
    else if store.None? then Err(StoreRequired)
    else match (AccountByCode(s.chart, ExpenseCode(category)), AccountByCode(s.chart, CASH))
         case (Some(exp), Some(cash)) =>
           (match PostJournal(s, Header("Expense: " + category + " - " + desc, None, NoRef, store),
                              [Dr(exp, amount, desc), Cr(cash, amount, desc)], now)
            case Err(e) => Err(e)
            case Ok(s1) =>
              Ok(s1.(expenses := s1.expenses + [ExpenseRow(s1.next, category, Round(amount), store, s.next)],
                     next := s1.next + 1)))
         case _ => Err(AccountMissing)
  }

  // ---- moving a document to another store ----

  function Retag(id: nat, opening: RefKind, payment: RefKind, store: Option<nat>): Journal -> Journal {
    (j: Journal) => if j.ref == Some(id) && (j.kind == opening || j.kind == payment) then j.(store := store) else j
  }

  function RetagOne(id: nat, store: Option<nat>): Journal -> Journal {
    (j: Journal) => if j.id == id then j.(store := store) else j
  }

  function MoveReceivable(s: State, id: nat, store: Option<nat>): Result<State> {
    match FindRow(s.ar, id)
    case None => Err(RowNotFound)
    case Some(i) =>
      Ok(s.(ar := s.ar[i := s.ar[i].(store := store)],
            journals := Map(s.journals, Retag(id, ReceivableRef, ArPaymentRef, store))))
  }

  function MovePayable(s: State, id: nat, store: Option<nat>): Result<State> {
    match FindRow(s.ap, id)
    case None => Err(RowNotFound)
    case Some(i) =>
      Ok(s.(ap := s.ap[i := s.ap[i].(store := store)],
            journals := Map(s.journals, Retag(id, PayableRef, ApPaymentRef, store))))
  }

  function FindExpense(es: seq<ExpenseRow>, id: nat): (i: Option<nat>)
    ensures i.Some? ==> i.value < |es| && es[i.value].id == id
    ensures i.None? ==> forall e :: e in es ==> e.id != id
  {
    if es == [] then None
    else if es[0].id == id then Some(0)
    else match FindExpense(es[1..], id)
         case None => None
         case Some(k) => Some(k + 1)
  }

  function MoveExpense(s: State, id: nat, store: Option<nat>): Result<State> {
    match FindExpense(s.expenses, id)
    case None => Err(RowNotFound)
    case Some(i) =>
      Ok(s.(expenses := s.expenses[i := s.expenses[i].(store := store)],
            journals := Map(s.journals, RetagOne(s.expenses[i].journal, store))))
  }

  // ---- the chart ----

  predicate Uses(j: Journal, account: nat) {
    exists l :: l in j.lines && l.account == account
  }

  function Not(id: nat): Account -> bool {
    (a: Account) => a.id != id
  }

  function DeleteAccount(s: State, id: nat): Result<State> {
    if !HasAccount(s.chart, id) then Err(RowNotFound)
    else if exists j :: j in s.journals && Uses(j, id) then Err(AccountInUse)
    else Ok(s.(chart := Filter(s.chart, Not(id))))
  }

  // ---- what an accepted request leaves, table by table ----

  lemma ReceivableShape(s: State, number: string, amount: real, store: Option<nat>, now: int)
    returns (recv: Account, rev: Account, h: Header, dd: string, cd: string)
    requires CreateReceivable(s, number, amount, store, now).Ok?
    ensures amount > 0.0 && store.Some? && h.kind == ReceivableRef && h.ref == Some(s.next) && h.store == store
    ensures AccountByCode(s.chart, RECEIVABLE) == Some(recv) && AccountByCode(s.chart, REVENUE) == Some(rev)
    ensures CreateReceivable(s, number, amount, store, now).value
         == s.(ar := s.ar + [OpenRow(s.next, number, Round(amount), store, now, "")], next := s.next + 2,
               journals := s.journals + [NewJournal(s.next + 1, h, Pair(recv, rev, Round(amount), dd, cd, now), now)])
  {
    recv, rev := AccountByCode(s.chart, RECEIVABLE).value, AccountByCode(s.chart, REVENUE).value;
    h, dd, cd := Header("Receivable: " + number, Some(s.next), ReceivableRef, store), "Receivable: " + number, "Revenue: " + number;
    PostPair(s.(ar := s.ar + [OpenRow(s.next, number, Round(amount), store, now, "")], next := s.next + 1),
             h, recv, rev, amount, dd, cd, now);
  }

  lemma PayableShape(s: State, number: string, amount: real, store: Option<nat>, category: string, now: int)
    returns (exp: Account, pay: Account, h: Header)
    requires CreatePayable(s, number, amount, store, category, now).Ok?
    ensures amount > 0.0 && store.Some? && h.kind == PayableRef && h.ref == Some(s.next) && h.store == store
    ensures AccountByCode(s.chart, ExpenseCode(category)) == Some(exp) && AccountByCode(s.chart, PAYABLE) == Some(pay)
    ensures CreatePayable(s, number, amount, store, category, now).value
         == s.(ap := s.ap + [OpenRow(s.next, number, Round(amount), store, now, category)], next := s.next + 2,
               journals := s.journals + [NewJournal(s.next + 1, h, Pair(exp, pay, Round(amount), number, number, now), now)])
  {
    exp, pay := AccountByCode(s.chart, ExpenseCode(category)).value, AccountByCode(s.chart, PAYABLE).value;
    h := Header("Payable: " + number, Some(s.next), PayableRef, store);
    PostPair(s.(ap := s.ap + [OpenRow(s.next, number, Round(amount), store, now, category)], next := s.next + 1),
             h, exp, pay, amount, number, number, now);
  }

  lemma ReceiptShape(s: State, id: nat, x: real, carry: bool, now: int)
    returns (i: nat, cash: Account, recv: Account, h: Header, desc: string)
    requires PayReceivable(s, id, x, carry, now).Ok?
    ensures x > 0.0 && FindRow(s.ar, id) == Some(i) && PayRow(s.ar[i], x).Ok?
    ensures desc == "AR payment: " + s.ar[i].number && h == Header(desc, Some(id), ArPaymentRef, if carry then s.ar[i].store else None)
    ensures AccountByCode(s.chart, CASH) == Some(cash) && AccountByCode(s.chart, RECEIVABLE) == Some(recv)
    ensures PayReceivable(s, id, x, carry, now).value
         == s.(ar := s.ar[i := PayRow(s.ar[i], x).value], arPays := s.arPays + [Payment(s.next, id, Round(x))], next := s.next + 2,
               journals := s.journals + [NewJournal(s.next + 1, h, Pair(cash, recv, Round(x), desc, desc, now), now)])
  {
    i := FindRow(s.ar, id).value;
    cash, recv := AccountByCode(s.chart, CASH).value, AccountByCode(s.chart, RECEIVABLE).value;
    desc := "AR payment: " + s.ar[i].number;
    h := Header(desc, Some(id), ArPaymentRef, if carry then s.ar[i].store else None);
    PostPair(RecordArPayment(s, id, x).value, h, cash, recv, x, desc, desc, now);
  }

  lemma DisbursementShape(s: State, id: nat, x: real, now: int)
    returns (i: nat, pay: Account, cash: Account, h: Header, desc: string)
    requires PayPayable(s, id, x, now).Ok?
    ensures x > 0.0 && FindRow(s.ap, id) == Some(i) && PayRow(s.ap[i], x).Ok?
    ensures desc == "AP payment: " + s.ap[i].number && h == Header(desc, Some(id), ApPaymentRef, None)
    ensures AccountByCode(s.chart, PAYABLE) == Some(pay) && AccountByCode(s.chart, CASH) == Some(cash)
    ensures PayPayable(s, id, x, now).value
         == s.(ap := s.ap[i := PayRow(s.ap[i], x).value], apPays := s.apPays + [Payment(s.next, id, Round(x))], next := s.next + 2,
               journals := s.journals + [NewJournal(s.next + 1, h, Pair(pay, cash, Round(x), desc, desc, now), now)])
  {
    i := FindRow(s.ap, id).value;
    pay, cash := AccountByCode(s.chart, PAYABLE).value, AccountByCode(s.chart, CASH).value;
    desc := "AP payment: " + s.ap[i].number;
    h := Header(desc, Some(id), ApPaymentRef, None);
    PostPair(RecordApPayment(s, id, x).value, h, pay, cash, x, desc, desc, now);
  }

  lemma ExpenseShape(s: State, category: string, desc: string, amount: real, store: Option<nat>, now: int)
    returns (exp: Account, cash: Account, h: Header)
    requires CreateExpense(s, category, desc, amount, store, now).Ok?
    ensures amount > 0.0 && store.Some? && h.kind == NoRef && h.ref == None && h.store == store
    ensures AccountByCode(s.chart, ExpenseCode(category)) == Some(exp) && AccountByCode(s.chart, CASH) == Some(cash)
    ensures CreateExpense(s, category, desc, amount, store, now).value
         == s.(expenses := s.expenses + [ExpenseRow(s.next + 1, category, Round(amount), store, s.next)], next := s.next + 2,
               journals := s.journals + [NewJournal(s.next, h, Pair(exp, cash, Round(amount), desc, desc, now), now)])
  {
    exp, cash := AccountByCode(s.chart, ExpenseCode(category)).value, AccountByCode(s.chart, CASH).value;
    h := Header("Expense: " + category + " - " + desc, None, NoRef, store);
    PostPair(s, h, exp, cash, amount, desc, desc, now);
  }
}
