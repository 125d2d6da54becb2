/** The history of a receivable or payable row against its payment ledger. */
module History {
  import opened Results
  import opened Sums
  import opened Ledger
  import opened Posting
  import opened SubLedger
  import opened Sales
  import opened SalePosting
  import opened Taxes
  import opened Runs
  import opened Reach

  ghost predicate RowOk(r: Row, pays: seq<Payment>) {
    && r.paid + r.balance == r.amount
    && r.paid == Sum(pays, PaidOn(r.id))
    && 0 <= r.paid && 0 <= r.balance
    && (r.status == Pending <==> r.paid == 0)
    && (r.status == Paid <==> r.balance == 0 && r.paid > 0)
    && r.status != Overdue
  }

  ghost predicate RowsOk(rows: seq<Row>, pays: seq<Payment>) {
    forall r :: r in rows ==> RowOk(r, pays)
  }

  lemma OpenedRowOk(rows: seq<Row>, pays: seq<Payment>, r: Row)
    requires RowsOk(rows, pays) && r.paid == 0 && r.balance == r.amount && r.amount >= 0 && r.status == Pending
    requires forall p :: p in pays ==> p.row < r.id
    ensures RowsOk(rows + [r], pays)
  {
    SumZero(pays, PaidOn(r.id));
  }

  /** The payment does not end in half a kobo, and leaves either nothing or at least half a kobo. */
  predicate Clean(r: Row, x: real) {
    !Half(x) && (r.balance as real - x < 0.5 ==> x == r.balance as real)
  }

  /** What an accepted payment does to the status: it is paid just when the payment is the whole balance, partial otherwise. */
  lemma PaidStatus(r: Row, x: real)
    requires r.paid >= 0 && PayRow(r, x).Ok?
    ensures var r' := PayRow(r, x).value;
            && r'.paid > 0 && (r'.status == Paid || r'.status == Partial)
            && (r'.status == Paid <==> x == r.balance as real)
            && (r'.balance == 0 <==> if Half(x) then r.balance as real - x < 0.5 else Round(x) == r.balance)
            && (!Half(x) ==> (Round(x) == r.balance <==> r.balance as real - x < 0.5))
  {
    PayRowExact(r, x);
  }

  /**
   One payment keeps a row's history exactly when it is clean. Otherwise
   either paid plus balance is one kobo too much, or the stored balance is
   zero while the status still says partial.
   */
  lemma PaymentKeepsHistoryIff(r: Row, pays: seq<Payment>, x: real, pid: nat)
    requires RowOk(r, pays) && PayRow(r, x).Ok?
    ensures RowOk(PayRow(r, x).value, pays + [Payment(pid, r.id, Round(x))]) <==> Clean(r, x)
  {
    PayRowExact(r, x);
    PaidStatus(r, x);
    SumAppend(pays, Payment(pid, r.id, Round(x)), PaidOn(r.id));
  }

  /** A payment leaves every other row's history as it was, so the whole table's history hangs on its own row. */
  lemma PaidRowOk(rows: seq<Row>, pays: seq<Payment>, i: nat, x: real, pid: nat)
    requires RowsOk(rows, pays) && UniqueRows(rows) && i < |rows| && PayRow(rows[i], x).Ok?
    ensures RowsOk(rows[i := PayRow(rows[i], x).value], pays + [Payment(pid, rows[i].id, Round(x))]) <==> Clean(rows[i], x)
  {
    var r, r', p := rows[i], PayRow(rows[i], x).value, Payment(pid, rows[i].id, Round(x));
    assert r in rows;
    PaymentKeepsHistoryIff(r, pays, x, pid);
    assert rows[i := r'][i] in rows[i := r'];
    forall q | q in rows[i := r'] && q != r'
      ensures RowOk(q, pays + [p])
    {
      SumAppend(pays, p, PaidOn(q.id));
      var k :| 0 <= k < |rows| && rows[i := r'][k] == q;
      assert rows[k] in rows && rows[k].id != r.id;
    }
  }

  lemma StoreChangeOk(rows: seq<Row>, pays: seq<Payment>, i: nat, store: Option<nat>)
    requires RowsOk(rows, pays) && i < |rows|
    ensures RowsOk(rows[i := rows[i].(store := store)], pays)
  {
    assert rows[i] in rows;
  }

  ghost predicate HistoryOk(s: State) {
    RowsOk(s.ar, s.arPays) && RowsOk(s.ap, s.apPays)
  }

  lemma SellKeepsHistory(s: State, sale: Sale, plan: seq<Planned>, clock: nat -> int)
    requires Inv(s) && HistoryOk(s) && PostPlanned(s, sale, plan, clock).Ok? && sale.total >= 0.0
    ensures HistoryOk(PostPlanned(s, sale, plan, clock).value)
  {
    RoundNonNegative(sale.total);
    OpenedRowOk(s.ar, s.arPays, SaleRow(s.next + 1, sale, clock(|plan| + 1)));
  }

  lemma ReceiveKeepsHistory(s: State, id: nat, x: real, now: int)
    requires Inv(s) && HistoryOk(s) && PayReceivable(s, id, x, false, now).Ok?
    ensures HistoryOk(PayReceivable(s, id, x, false, now).value) <==> Clean(s.ar[FindRow(s.ar, id).value], x)
  {
    var i, cash, recv, h, desc := ReceiptShape(s, id, x, false, now);
    PaidRowOk(s.ar, s.arPays, i, x, s.next);
  }

  lemma MakeKeepsHistory(s: State, id: nat, x: real, now: int)
    requires Inv(s) && HistoryOk(s) && PayPayable(s, id, x, now).Ok?
    ensures HistoryOk(PayPayable(s, id, x, now).value) <==> Clean(s.ap[FindRow(s.ap, id).value], x)
  {
    var i, pay, cash, h, desc := DisbursementShape(s, id, x, now);
    PaidRowOk(s.ap, s.apPays, i, x, s.next);
  }

  /** The request is not an accepted payment, or it is a clean one. */
  predicate CleanStep(s: State, op: Op) {
    Step(s, op).Ok? ==>
      match op
      case ReceivePayment(row, amount, _) => (match FindRow(s.ar, row) case None => true case Some(i) => Clean(s.ar[i], amount))
      case MakePayment(row, amount, _) => (match FindRow(s.ap, row) case None => true case Some(i) => Clean(s.ap[i], amount))
      case _ => true
  }

  lemma OpeningKeepsHistory(s: State, op: Op)
    requires Inv(s) && HistoryOk(s) && Step(s, op).Ok? && (op.OpenReceivable? || op.OpenPayable?)
    ensures HistoryOk(Next(s, op))
  {
    match op
    case OpenReceivable(number, amount, store, now) =>
      var recv, rev, h, dd, cd := ReceivableShape(s, number, amount, store, now);
      RoundNonNegative(amount);
      OpenedRowOk(s.ar, s.arPays, OpenRow(s.next, number, Round(amount), store, now, ""));
    case OpenPayable(number, amount, store, category, now) =>
      var exp, pay, h := PayableShape(s, number, amount, store, category, now);
      RoundNonNegative(amount);
      OpenedRowOk(s.ap, s.apPays, OpenRow(s.next, number, Round(amount), store, now, category));
  }

  lemma OtherStepKeepsHistory(s: State, op: Op)
    requires Inv(s) && SaleOk(op) && HistoryOk(s) && Step(s, op).Ok? && !Document(op)
    ensures HistoryOk(Next(s, op))
  {
    match op
    case Sell(sale, clock) => SellKeepsHistory(s, sale, Plan(Round, sale), clock);
    case MoveAr(row, store) => StoreChangeOk(s.ar, s.arPays, FindRow(s.ar, row).value, store);
    case MoveAp(row, store) => StoreChangeOk(s.ap, s.apPays, FindRow(s.ap, row).value, store);
    case Spend(category, desc, amount, store, now) =>
      var exp, cash, h := ExpenseShape(s, category, desc, amount, store, now);
    case Remit(code, amount, payBy, store, now) =>
      var tax, from := RemitShape(s, code, amount, payBy, store, now);
    case MoveCost(_, _) =>
    case DropAccount(_) =>
  }

  lemma StepKeepsHistoryIff(s: State, op: Op)
    requires Inv(s) && SaleOk(op) && HistoryOk(s)
    ensures HistoryOk(Next(s, op)) <==> CleanStep(s, op)
  {
    if Step(s, op).Ok? {
      match op
      case ReceivePayment(row, amount, now) => ReceiveKeepsHistory(s, row, amount, now);
      case MakePayment(row, amount, now) => MakeKeepsHistory(s, row, amount, now);
      case OpenReceivable(_, _, _, _) => OpeningKeepsHistory(s, op);
      case OpenPayable(_, _, _, _, _) => OpeningKeepsHistory(s, op);
      case _ => OtherStepKeepsHistory(s, op);
    }
  }

  predicate CleanRun(s: State, ops: seq<Op>)
    decreases |ops|
  {
    ops == [] || (CleanStep(s, ops[0]) && CleanRun(Next(s, ops[0]), ops[1..]))
  }

  /** The history adds up now and after every request of the run. */
  ghost predicate HistoryThroughout(s: State, ops: seq<Op>)
    decreases |ops|
  {
    HistoryOk(s) && (ops != [] ==> HistoryThroughout(Next(s, ops[0]), ops[1..]))
  }

  /** Over every run and every amount: each row's history adds up throughout exactly when every accepted payment is clean. */
  lemma {:induction false} HistoryThroughoutIff(s: State, ops: seq<Op>)
    requires Inv(s) && HistoryOk(s) && forall op :: op in ops ==> SaleOk(op)
    ensures HistoryThroughout(s, ops) <==> CleanRun(s, ops)
    decreases |ops|
  {
    if ops != [] {
      StepKeepsHistoryIff(s, ops[0]);
      StepKeepsInv(s, ops[0]);
      if CleanStep(s, ops[0]) {
        HistoryThroughoutIff(Next(s, ops[0]), ops[1..]);
      }
    }
  }

  /** In particular every state such a run reaches has a history that adds up. */
  lemma {:induction false} HistoryOverRuns(s: State, ops: seq<Op>)
    requires Inv(s) && HistoryOk(s) && CleanRun(s, ops) && forall op :: op in ops ==> SaleOk(op)
    ensures HistoryOk(Run(s, ops))
    decreases |ops|
  {
    if ops != [] {
      StepKeepsHistoryIff(s, ops[0]);
      StepKeepsInv(s, ops[0]);
      HistoryOverRuns(Next(s, ops[0]), ops[1..]);
    }
  }

  /** Whole-kobo payments are clean. */
  lemma {:induction false} WholeRunIsClean(s: State, ops: seq<Op>)
    requires forall op :: op in ops ==> KoboPayment(op)
    ensures CleanRun(s, ops)
    decreases |ops|
  {
    if ops != [] {
      WholeStepIsClean(s, ops[0]);
      WholeRunIsClean(Next(s, ops[0]), ops[1..]);
    }
  }

  lemma AcceptedFits(r: Row, x: real)
    requires PayRow(r, x).Ok?
    ensures x <= r.balance as real
  {
  }

  lemma WholeIsClean(r: Row, x: real)
    requires Whole(x) && x <= r.balance as real
    ensures Clean(r, x)
  {
    var k := x.Floor;
    assert r.balance as real - x == (r.balance - k) as real;
  }

  lemma WholeStepIsClean(s: State, op: Op)
    requires KoboPayment(op)
    ensures CleanStep(s, op)
  {
    match op
    case ReceivePayment(row, amount, now) =>
      if PayReceivable(s, row, amount, false, now).Ok? {
        AcceptedFits(s.ar[FindRow(s.ar, row).value], amount);
        WholeIsClean(s.ar[FindRow(s.ar, row).value], amount);
      }
    case MakePayment(row, amount, now) =>
      if PayPayable(s, row, amount, now).Ok? {
        AcceptedFits(s.ap[FindRow(s.ap, row).value], amount);
        WholeIsClean(s.ap[FindRow(s.ap, row).value], amount);
      }
    case _ =>
  }

  /** A receivable payment is refused for these reasons and no other. */
  lemma PaymentRefusedIff(s: State, id: nat, x: real, now: int)
    ensures PayReceivable(s, id, x, false, now).Err? <==>
              || FindRow(s.ar, id).None?
              || Round(x) <= 0
              || x > s.ar[FindRow(s.ar, id).value].balance as real
              || AccountByCode(s.chart, CASH).None?
              || AccountByCode(s.chart, RECEIVABLE).None?
    ensures match PayReceivable(s, id, x, false, now)
            case Ok(_) => true
            case Err(RowNotFound) => forall r :: r in s.ar ==> r.id != id
            case Err(NotPositive) => Round(x) <= 0
            case Err(ExceedsBalance) => FindRow(s.ar, id).Some? && x > s.ar[FindRow(s.ar, id).value].balance as real
            case Err(AccountMissing) => AccountByCode(s.chart, CASH).None? || AccountByCode(s.chart, RECEIVABLE).None?
            case Err(_) => false
  {
    RoundWhole(0);
    if RecordArPayment(s, id, x).Ok? && AccountByCode(s.chart, CASH).Some? && AccountByCode(s.chart, RECEIVABLE).Some? {
      var r := s.ar[FindRow(s.ar, id).value];
      var desc := "AR payment: " + r.number;
      PostPair(RecordArPayment(s, id, x).value, Header(desc, Some(id), ArPaymentRef, None),
               AccountByCode(s.chart, CASH).value, AccountByCode(s.chart, RECEIVABLE).value, x, desc, desc, now);
    }
  }

  /** And a payable payment likewise, with 2000 in place of 1100. */
  lemma PayablePaymentRefusedIff(s: State, id: nat, x: real, now: int)
    ensures PayPayable(s, id, x, now).Err? <==>
              || FindRow(s.ap, id).None?
              || Round(x) <= 0
              || x > s.ap[FindRow(s.ap, id).value].balance as real
              || AccountByCode(s.chart, PAYABLE).None?
              || AccountByCode(s.chart, CASH).None?
    ensures match PayPayable(s, id, x, now)
            case Ok(_) => true
            case Err(RowNotFound) => forall r :: r in s.ap ==> r.id != id
            case Err(NotPositive) => Round(x) <= 0
            case Err(ExceedsBalance) => FindRow(s.ap, id).Some? && x > s.ap[FindRow(s.ap, id).value].balance as real
            case Err(AccountMissing) => AccountByCode(s.chart, PAYABLE).None? || AccountByCode(s.chart, CASH).None?
            case Err(_) => false
  {
    RoundWhole(0);
    if RecordApPayment(s, id, x).Ok? && AccountByCode(s.chart, PAYABLE).Some? && AccountByCode(s.chart, CASH).Some? {
      var r := s.ap[FindRow(s.ap, id).value];
      var desc := "AP payment: " + r.number;
      PostPair(RecordApPayment(s, id, x).value, Header(desc, Some(id), ApPaymentRef, None),
               AccountByCode(s.chart, PAYABLE).value, AccountByCode(s.chart, CASH).value, x, desc, desc, now);
    }
  }

  // ---- the two ways a payment breaks its row ----

  function SampleRow(): Row {
    OpenRow(1, "INV-1", 100, None, 0, "")
  }

  /** 50.5 of 100 kobo: both figures round up, and the row ends one kobo above its amount. */
  lemma HalfKoboBreaksTheRow()
    ensures RowOk(SampleRow(), []) && PayRow(SampleRow(), 50.5).Ok?
    ensures var r := PayRow(SampleRow(), 50.5).value; r.paid == 51 && r.balance == 50 && !RowOk(r, [Payment(2, 1, 51)])
  {
    assert Round(50.5) == 51 && Round(0.0 + 50.5) == 51 && Round(100.0 - 50.5) == 50;
  }

  /** 99.7 of 100 kobo: everything is stored as paid, but the status says partial, and no further payment is accepted. */
  lemma RemainderBreaksTheRow(y: real)
    ensures RowOk(SampleRow(), []) && PayRow(SampleRow(), 99.7).Ok? && !Half(99.7)
    ensures var r := PayRow(SampleRow(), 99.7).value;
            && r.paid == 100 && r.balance == 0 && r.status == Partial
            && !RowOk(r, [Payment(2, 1, 100)]) && PayRow(r, y).Err?
  {
    assert Round(99.7) == 100 && Round(0.0 + 99.7) == 100 && Round(100.0 - 99.7) == 0;
  }
}
