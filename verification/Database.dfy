/**
 The tables as they are updated in place. Every method here is proved to leave
 the tables as its counterpart on State says; a refused request rolls back.
 */
module Database {
  import opened Results
  import opened Sums
  import opened Ledger
  import opened Posting
  import opened SubLedger
  import opened Sales
  import opened SalePosting
  import opened Taxes
  import opened Backfill
  import opened Heal
  import opened Opening

  /** A request either commits the new tables or leaves them as they were. */
  predicate Answers(res: Result<State>, before: State, after: State, refused: Option<Error>) {
    match res
    case Ok(s) => refused == None && after == s
    case Err(e) => refused == Some(e) && after == before
  }

  lemma MapAppend<T, U>(s: seq<T>, x: T, m: T -> U)
    ensures Map(s + [x], m) == Map(s, m) + [m(x)]
  {
  }

  lemma RSumAppend<T>(s: seq<T>, x: T, f: T -> real)
    ensures RSum(s + [x], f) == RSum(s, f) + f(x)
  {
    RSumConcat(s, [x], f);
    assert [x][1..] == [];
  }

  class Books {
    var chart: seq<Account>
    var journals: seq<Journal>
    var ar: seq<Row>
    var ap: seq<Row>
    var arPays: seq<Payment>
    var apPays: seq<Payment>
    var expenses: seq<ExpenseRow>
    var taxes: seq<Tax>
    var next: nat

    constructor (chart: seq<Account>, taxes: seq<Tax>, next: nat)
      ensures Snap() == Empty(chart, taxes, next)
    {
      this.chart, this.taxes, this.next := chart, taxes, next;
      journals, ar, ap, arPays, apPays, expenses := [], [], [], [], [], [];
    }

    /** The tables as a value. */
    function Snap(): State
      reads this
    {
      State(chart, journals, ar, ap, arPays, apPays, expenses, taxes, next)
    }

    method Rollback(saved: State)
      modifies this
      ensures Snap() == saved
    {
      chart, journals, ar, ap := saved.chart, saved.journals, saved.ar, saved.ap;
      arPays, apPays, expenses, taxes, next := saved.arPays, saved.apPays, saved.expenses, saved.taxes, saved.next;
    }

    /** The two totals of a posting. */
    method Totals(es: seq<Entry>) returns (debit: real, credit: real)
      ensures debit == RSum(es, Debited()) && credit == RSum(es, Credited())
    {
      debit, credit := 0.0, 0.0;
      for i := 0 to |es|
        invariant debit == RSum(es[..i], Debited()) && credit == RSum(es[..i], Credited())
      {
        assert es[..i + 1] == es[..i] + [es[i]];
        RSumAppend(es[..i], es[i], Debited());
        RSumAppend(es[..i], es[i], Credited());
        debit := debit + Amount(es[i].debit);
        credit := credit + Amount(es[i].credit);
      }
      assert es[..|es|] == es;
    }

    /** The lines of the last journal, one INSERT each; an entry without an account raises half-way. */
    method InsertEntries(es: seq<Entry>, now: int) returns (raised: Option<Error>)
      requires journals != [] && journals[|journals| - 1].lines == []
      modifies this`journals
      ensures raised == if exists e :: e in es && e.account.None? then Some(EntryWithoutAccount) else None
      ensures raised.None? ==>
        var n := |old(journals)| - 1; journals == old(journals)[..n] + [old(journals)[n].(lines := Map(es, ToLine(now)))]
    {
      var n := |journals| - 1;
      ghost var head, base := journals[n], journals[..n];
      assert es[..0] == [] && Map(es[..0], ToLine(now)) == [];
      for i := 0 to |es|
        invariant |journals| == n + 1 && journals[..n] == base
        invariant journals[n] == head.(lines := Map(es[..i], ToLine(now)))
        invariant forall k :: 0 <= k < i ==> es[k].account.Some?
      {
        if es[i].account.None? {
          assert es[i] in es;
          return Some(EntryWithoutAccount);
        }
        assert es[..i + 1] == es[..i] + [es[i]];
        MapAppend(es[..i], es[i], ToLine(now));
        journals := journals[n := journals[n].(lines := journals[n].lines + [ToLine(now)(es[i])])];
      }
      assert es[..|es|] == es;
      raised := None;
    }

    /** fn_post_journal. When it raises, a header and some lines may already be there: the caller's transaction undoes them. */
    method PostJournal(h: Header, es: seq<Entry>, now: int) returns (raised: Option<Error>)
      modifies this`journals, this`next
      ensures match Posting.PostJournal(old(Snap()), h, es, now)
              case Err(e) => raised == Some(e)
              case Ok(s) => raised == None && Snap() == s
    {
      var totalDebit, totalCredit := Totals(es);
      if Abs(totalDebit - totalCredit) > TOLERANCE {
        return Some(Unbalanced);
      }
      journals := journals + [NewJournal(next, h, [], now)];
      next := next + 1;
      raised := InsertEntries(es, now);
    }

    // ---- receivables and payables ----

    method CreateReceivable(number: string, amount: real, store: Option<nat>, now: int) returns (refused: Option<Error>)
      modifies this
      ensures Answers(SubLedger.CreateReceivable(old(Snap()), number, amount, store, now), old(Snap()), Snap(), refused)
    {
      var saved := Snap();
      if amount <= 0.0 { return Some(NotPositive); }
      if store.None? { return Some(StoreRequired); }
      var recv, rev := AccountByCode(chart, RECEIVABLE), AccountByCode(chart, REVENUE);
      if recv.None? || rev.None? { return Some(AccountMissing); }
      var id := next;
      next := next + 1;
      ar := ar + [OpenRow(id, number, Round(amount), store, now, "")];
      refused := PostJournal(
        Header("Receivable: " + number, Some(id), ReceivableRef, store),
        [Dr(recv.value, amount, "Receivable: " + number), Cr(rev.value, amount, "Revenue: " + number)], now);
      if refused.Some? { Rollback(saved); }
    }

    method CreatePayable(number: string, amount: real, store: Option<nat>, category: string, now: int)
      returns (refused: Option<Error>)
      modifies this
      ensures Answers(SubLedger.CreatePayable(old(Snap()), number, amount, store, category, now), old(Snap()), Snap(), refused)
    {
      var saved := Snap();
      if amount <= 0.0 { return Some(NotPositive); }
      if store.None? { return Some(StoreRequired); }
      var pay, exp := AccountByCode(chart, PAYABLE), AccountByCode(chart, ExpenseCode(category));
      if pay.None? || exp.None? { return Some(AccountMissing); }
      var id := next;
      next := next + 1;
      ap := ap + [OpenRow(id, number, Round(amount), store, now, category)];
      refused := PostJournal(
        Header("Payable: " + number, Some(id), PayableRef, store),
        [Dr(exp.value, amount, number), Cr(pay.value, amount, number)], now);
      if refused.Some? { Rollback(saved); }
    }

    /** fn_record_ar_payment: it answers with an error and writes nothing, or moves the row and its ledger together. */
    method RecordArPayment(id: nat, x: real) returns (refused: Option<Error>)
      modifies this`ar, this`arPays, this`next
      ensures Answers(SubLedger.RecordArPayment(old(Snap()), id, x), old(Snap()), Snap(), refused)
    {
      var found := FindRow(ar, id);
      if found.None? { return Some(RowNotFound); }
      var row := ar[found.value];
      if x <= 0.0 { return Some(NotPositive); }
      if x > row.balance as real { return Some(ExceedsBalance); }
      if Round(x) <= 0 { return Some(NotPositive); }
      var newPaid, newBalance := row.paid as real + x, row.balance as real - x;
      ar := ar[found.value := row.(paid := Round(newPaid), balance := Round(newBalance),
                                   status := if newBalance <= 0.0 then Paid else Partial)];
      arPays := arPays + [Payment(next, id, Round(x))];
      next := next + 1;
      refused := None;
    }

    method RecordApPayment(id: nat, x: real) returns (refused: Option<Error>)
      modifies this`ap, this`apPays, this`next
      ensures Answers(SubLedger.RecordApPayment(old(Snap()), id, x), old(Snap()), Snap(), refused)
    {
      var found := FindRow(ap, id);
      if found.None? { return Some(RowNotFound); }
      var row := ap[found.value];
      if x <= 0.0 { return Some(NotPositive); }
      if x > row.balance as real { return Some(ExceedsBalance); }
      if Round(x) <= 0 { return Some(NotPositive); }
      var newPaid, newBalance := row.paid as real + x, row.balance as real - x;
      ap := ap[found.value := row.(paid := Round(newPaid), balance := Round(newBalance),
                                   status := if newBalance <= 0.0 then Paid else Partial)];
      apPays := apPays + [Payment(next, id, Round(x))];
      next := next + 1;
      refused := None;
    }

    /** The cash leg of a payment; its caller found no store to tag it with. */
    method PostPaymentJournal(x: real, debit: string, credit: string, desc: string, ref: nat, kind: RefKind, now: int)
      returns (refused: Option<Error>)
      modifies this`journals, this`next
      ensures match (AccountByCode(old(chart), debit), AccountByCode(old(chart), credit))
              case (Some(d), Some(c)) =>
                (match Posting.PostJournal(old(Snap()), Header(desc, Some(ref), kind, None), [Dr(d, x, desc), Cr(c, x, desc)], now)
                 case Err(e) => refused == Some(e)
                 case Ok(s) => refused == None && Snap() == s)
              case _ => refused == Some(AccountMissing)
    {
      var d, c := AccountByCode(chart, debit), AccountByCode(chart, credit);
      if d.None? || c.None? { return Some(AccountMissing); }
      refused := PostJournal(Header(desc, Some(ref), kind, None), [Dr(d.value, x, desc), Cr(c.value, x, desc)], now);
    }

    /** The route: a failed journal rolls back the payment too. */
    method PayReceivable(id: nat, x: real, now: int) returns (refused: Option<Error>)
      modifies this
      ensures Answers(SubLedger.PayReceivable(old(Snap()), id, x, false, now), old(Snap()), Snap(), refused)
    {
      var saved := Snap();
      refused := RecordArPayment(id, x);
      if refused.Some? { return; }
      var i := FindRow(saved.ar, id).value;
      refused := PostPaymentJournal(x, CASH, RECEIVABLE, "AR payment: " + saved.ar[i].number, id, ArPaymentRef, now);
      if refused.Some? { Rollback(saved); }
    }

    method PayPayable(id: nat, x: real, now: int) returns (refused: Option<Error>)
      modifies this
      ensures Answers(SubLedger.PayPayable(old(Snap()), id, x, now), old(Snap()), Snap(), refused)
    {
      var saved := Snap();
      refused := RecordApPayment(id, x);
      if refused.Some? { return; }
      var i := FindRow(saved.ap, id).value;
      refused := PostPaymentJournal(x, PAYABLE, CASH, "AP payment: " + saved.ap[i].number, id, ApPaymentRef, now);
      if refused.Some? { Rollback(saved); }
    }

    method CreateExpense(category: string, desc: string, amount: real, store: Option<nat>, now: int)
      returns (refused: Option<Error>)
      modifies this
      ensures Answers(SubLedger.CreateExpense(old(Snap()), category, desc, amount, store, now), old(Snap()), Snap(), refused)
    {
      var saved := Snap();
      if amount <= 0.0 { return Some(NotPositive); }
      if store.None? { return Some(StoreRequired); }
      var exp, cash := AccountByCode(chart, ExpenseCode(category)), AccountByCode(chart, CASH);
      if exp.None? || cash.None? { return Some(AccountMissing); }
      var journal := next;
      refused := PostJournal(
        Header("Expense: " + category + " - " + desc, None, NoRef, store),
        [Dr(exp.value, amount, desc), Cr(cash.value, amount, desc)], now);
      if refused.Some? {
        Rollback(saved);
        return;
      }
      expenses := expenses + [ExpenseRow(next, category, Round(amount), store, journal)];
      next := next + 1;
    }

    // ---- moving to another store ----

    /** UPDATE journals SET store_id, one row after another. */
    method TagJournals(m: Journal -> Journal)
      modifies this`journals
      ensures journals == Map(old(journals), m)
    {
      for i := 0 to |journals|
        invariant |journals| == |old(journals)|
        invariant forall k :: 0 <= k < i ==> journals[k] == m(old(journals)[k])
        invariant forall k :: i <= k < |journals| ==> journals[k] == old(journals)[k]
      {
        journals := journals[i := m(journals[i])];
      }
      assert journals == Map(old(journals), m);
    }

    method MoveReceivable(id: nat, store: Option<nat>) returns (refused: Option<Error>)
      modifies this`ar, this`journals
      ensures Answers(SubLedger.MoveReceivable(old(Snap()), id, store), old(Snap()), Snap(), refused)
    {
      var found := FindRow(ar, id);
      if found.None? { return Some(RowNotFound); }
      ar := ar[found.value := ar[found.value].(store := store)];
      TagJournals(Retag(id, ReceivableRef, ArPaymentRef, store));
      refused := None;
    }

    method MovePayable(id: nat, store: Option<nat>) returns (refused: Option<Error>)
      modifies this`ap, this`journals
      ensures Answers(SubLedger.MovePayable(old(Snap()), id, store), old(Snap()), Snap(), refused)
    {
      var found := FindRow(ap, id);
      if found.None? { return Some(RowNotFound); }
      ap := ap[found.value := ap[found.value].(store := store)];
      TagJournals(Retag(id, PayableRef, ApPaymentRef, store));
      refused := None;
    }

    method MoveExpense(id: nat, store: Option<nat>) returns (refused: Option<Error>)
      modifies this`expenses, this`journals
      ensures Answers(SubLedger.MoveExpense(old(Snap()), id, store), old(Snap()), Snap(), refused)
    {
      var found := FindExpense(expenses, id);
      if found.None? { return Some(RowNotFound); }
      var journal := expenses[found.value].journal;
      expenses := expenses[found.value := expenses[found.value].(store := store)];
      TagJournals(RetagOne(journal, store));
      refused := None;
    }

    /** delete_account: the lines on the account are counted first. */
    method DeleteAccount(id: nat) returns (refused: Option<Error>)
      modifies this`chart
      ensures Answers(SubLedger.DeleteAccount(old(Snap()), id), old(Snap()), Snap(), refused)
    {
      if !HasAccount(chart, id) { return Some(RowNotFound); }
      var count := 0;
      for i := 0 to |journals|
        invariant count >= 0
        invariant count > 0 <==> exists k :: 0 <= k < i && Uses(journals[k], id)
      {
        var lines, before := journals[i].lines, count;
        for k := 0 to |lines|
          invariant count >= before
          invariant count > before <==> exists m :: 0 <= m < k && lines[m].account == id
        {
          if lines[k].account == id { count := count + 1; }
        }
        assert count > before <==> Uses(journals[i], id);
      }
      if count > 0 { return Some(AccountInUse); }
      chart := Filter(chart, Not(id));
      refused := None;
    }

    // ---- taxes ----

    method RemitTax(code: string, x: real, payBy: string, store: Option<nat>, now: int) returns (refused: Option<Error>)
      modifies this
      ensures Answers(Taxes.RemitTax(old(Snap()), code, x, payBy, store, now), old(Snap()), Snap(), refused)
    {
      var saved := Snap();
      if x <= 0.0 { return Some(NotPositive); }
      if payBy != "cash" && payBy != "bank" { return Some(BadMethod); }
      if store.None? { return Some(StoreRequired); }
      var lines := GetTaxesOwed(saved, store);
      var i := 0;
      while i < |lines| && lines[i].code != code
        invariant i <= |lines| && forall k :: 0 <= k < i ==> lines[k].code != code
      {
        i := i + 1;
      }
      var tax := AccountByCode(chart, code);
      if i == |lines| {
        assert forall l :: l in lines ==> l.code != code;
        return Some(NoTaxOwed);
      }
      assert lines[i] in lines;
      if x > lines[i].owed as real + REMIT_SLACK { return Some(ExceedsOwed); }
      var from := CreditAccount(chart, payBy);
      if from.None? { return Some(AccountMissing); }
      refused := PostJournal(RemitHeader(store), [Dr(tax.value, x, "Tax remitted"), Cr(from.value, x, "Paid out")], now);
      if refused.Some? { Rollback(saved); }
    }

    // ---- sales ----

    /** The account of every planned entry, unless one is missing. */
    method ResolveAll(entries: seq<Planned>) returns (accounts: Option<seq<Account>>)
      ensures accounts.Some? <==> Resolvable(chart, entries)
      ensures accounts.Some? ==> |accounts.value| == |entries|
      ensures accounts.Some? ==> forall k :: 0 <= k < |entries| ==> Resolve(chart, entries, entries[k].code) == Some(accounts.value[k])
    {
      var found: seq<Account> := [];
      for i := 0 to |entries|
        invariant |found| == i
        invariant forall k :: 0 <= k < i ==> Resolve(chart, entries, entries[k].code) == Some(found[k])
      {
        var account := Resolve(chart, entries, entries[i].code);
        if account.None? {
          assert entries[i] in entries;
          return None;
        }
        found := found + [account.value];
      }
      accounts := Some(found);
    }

    /** The lines of the last journal of a sale, each with its own stamp. */
    method InsertSaleEntries(entries: seq<Planned>, accounts: seq<Account>, clock: nat -> int) returns (owes: bool)
      requires Resolvable(chart, entries) && |accounts| == |entries|
      requires forall k :: 0 <= k < |entries| ==> Resolve(chart, entries, entries[k].code) == Some(accounts[k])
      requires journals != [] && journals[|journals| - 1].lines == []
      modifies this`journals
      ensures var n, lines := |old(journals)| - 1, SaleLines(chart, entries, clock);
              journals == old(journals)[..n] + [old(journals)[n].(lines := lines)] && owes == BooksTo(lines, RECEIVABLE)
    {
      var n := |journals| - 1;
      ghost var head, base, lines := journals[n], journals[..n], SaleLines(chart, entries, clock);
      owes := false;
      for i := 0 to |entries|
        invariant |journals| == n + 1 && journals[..n] == base && journals[n] == head.(lines := lines[..i])
        invariant owes <==> exists k :: 0 <= k < i && lines[k].code == RECEIVABLE
      {
        var line := Line(accounts[i].id, accounts[i].code, Round(entries[i].debit), Round(entries[i].credit),
                         entries[i].desc, true, Some(clock(i)));
        assert line == lines[i] && lines[..i + 1] == lines[..i] + [lines[i]];
        journals := journals[n := journals[n].(lines := journals[n].lines + [line])];
        owes := owes || line.code == RECEIVABLE;
      }
      assert lines[..|entries|] == lines;
    }

    /** Header and lines of a sale. */
    method WriteSaleJournal(sale: Sale, entries: seq<Planned>, accounts: seq<Account>, clock: nat -> int, postedAt: int)
      returns (owes: bool)
      requires Resolvable(chart, entries) && |accounts| == |entries|
      requires forall k :: 0 <= k < |entries| ==> Resolve(chart, entries, entries[k].code) == Some(accounts[k])
      modifies this`journals, this`next
      ensures Snap() == AddJournal(old(Snap()), SaleHeader(sale), SaleLines(chart, entries, clock), postedAt)
      ensures owes == BooksTo(SaleLines(chart, entries, clock), RECEIVABLE)
    {
      var empty := NewJournal(next, SaleHeader(sale), [], postedAt);
      journals := journals + [empty];
      next := next + 1;
      assert journals[..|old(journals)|] == old(journals);
      owes := InsertSaleEntries(entries, accounts, clock);
    }

    method WriteSale(sale: Sale, entries: seq<Planned>, accounts: seq<Account>, clock: nat -> int)
      requires Resolvable(chart, entries) && |accounts| == |entries|
      requires forall k :: 0 <= k < |entries| ==> Resolve(chart, entries, entries[k].code) == Some(accounts[k])
      modifies this`journals, this`ar, this`next
      ensures Snap() == CommitSale(old(Snap()), sale, SaleLines(chart, entries, clock), clock(|entries|), clock(|entries| + 1))
    {
      var owes := WriteSaleJournal(sale, entries, accounts, clock, clock(|entries|));
      if !sale.settled && owes {
        ar := ar + [SaleRow(next, sale, clock(|entries| + 1))];
        next := next + 1;
      }
    }

    /** _post_sale_journal: resolve every planned entry, then write header, lines and receivable in one commit. */
    method PostSale(sale: Sale, clock: nat -> int) returns (refused: Option<Error>)
      modifies this`journals, this`ar, this`next
      ensures Answers(SalePosting.PostSale(old(Snap()), sale, clock), old(Snap()), Snap(), refused)
    {
      var entries := PlanSaleJournal(Round, sale);
      var accounts := ResolveAll(entries);
      if accounts.None? { return Some(AccountMissing); }
      WriteSale(sale, entries, accounts.value, clock);
      refused := None;
    }

    // ---- the repair programs ----

    /** The apply pass of heal_duplicate_ar. */
    method ApplyHeal(dupes: seq<Row>, now: int)
      modifies this
      ensures Snap() == Heal.Heal(old(Snap()), dupes, now)
    {
      var js := journals;
      for i := 0 to |dupes|
        invariant HealAll(Snap(), js, dupes[i..], now) == Heal.Heal(old(Snap()), dupes, now)
      {
        var d := dupes[i];
        assert dupes[i..][0] == d && dupes[i..][1..] == dupes[i + 1..];
        if !Reversed(js, d) {
          ReverseAll(PaymentJournals(js, d.id), d, now);
          arPays := Filter(arPays, NotPaying(d.id));
          ar := Filter(ar, NotRow(d.id));
        }
      }
      assert dupes[|dupes|..] == [];
    }

    /** A reversal journal for each of these, its lines written one by one with the sides swapped. */
    method ReverseAll(payments: seq<Journal>, d: Row, now: int)
      modifies this`journals, this`next
      ensures Snap() == AddReversals(old(Snap()), payments, d, now)
      ensures ar == old(ar) && arPays == old(arPays)
    {
      for i := 0 to |payments|
        invariant AddReversals(Snap(), payments[i..], d, now) == AddReversals(old(Snap()), payments, d, now)
      {
        var p, n, before := payments[i], |journals|, journals;
        assert payments[i..][0] == p && payments[i..][1..] == payments[i + 1..];
        var empty := Reversal(p, next, d, now).(lines := []);
        next := next + 1;
        journals := journals + [empty];
        assert p.lines[..0] == [] && Map(p.lines[..0], Swap(now)) == [];
        ghost var here := Snap();
        for k := 0 to |p.lines|
          invariant journals == before + [empty.(lines := Map(p.lines[..k], Swap(now)))]
          invariant Snap() == here.(journals := journals)
        {
          assert p.lines[..k + 1] == p.lines[..k] + [p.lines[k]];
          MapAppend(p.lines[..k], p.lines[k], Swap(now));
          journals := journals[n := journals[n].(lines := journals[n].lines + [Swap(now)(p.lines[k])])];
        }
        assert p.lines[..|p.lines|] == p.lines;
      }
      assert payments[|payments|..] == [];
    }

    /** _ensure_receivable and its commit. */
    method EnsureReceivable(x: Sale, at: int, commits: nat) returns (alive: bool, left: nat)
      modifies this`ar, this`next
      ensures Backfill.EnsureReceivable(old(Snap()), x, at, commits) == if alive then Reached(Snap(), left) else Stopped(Snap())
    {
      left := commits;
      if HasRow(Snap(), x.number) { return true, left; }
      if left == 0 { return false, left; }
      ar := ar + [OpenRow(next, x.number, Round(x.total), x.store, at, "")];
      next := next + 1;
      return true, left - 1;
    }

    /** _book_one: one commit for the journal, one for the row. */
    method BookOne(x: Sale, pending: Sale -> bool, clock: nat -> int, commits: nat) returns (alive: bool, left: nat, booked: bool)
      modifies this`journals, this`ar, this`next
      ensures Backfill.BookOne(old(Snap()), x, pending, clock, commits) == if alive then Reached(Snap(), left) else Stopped(Snap())
    {
      if !pending(x) || AlreadyBooked(Snap(), x.id) { return true, commits, false; }
      if commits == 0 { return false, commits, false; }
      var refused := PostSale(x, clock);
      if refused.Some? { return false, commits, false; }
      alive, left := EnsureReceivable(x, clock(0), commits - 1);
      booked := true;
    }

    /** The pending sales without a journal, and how many have one. */
    method SalesToBook(sales: seq<Sale>, pending: Sale -> bool) returns (todo: seq<Sale>, skipped: nat)
      ensures todo == Filter(sales, Unbooked(Snap(), pending)) && |todo| + skipped == |Filter(sales, pending)|
    {
      todo, skipped := [], 0;
      for i := 0 to |sales|
        invariant todo == Filter(sales[..i], Unbooked(Snap(), pending))
        invariant |todo| + skipped == |Filter(sales[..i], pending)|
      {
        assert sales[..i + 1] == sales[..i] + [sales[i]];
        FilterAppend(sales[..i], sales[i], Unbooked(Snap(), pending));
        FilterAppend(sales[..i], sales[i], pending);
        if pending(sales[i]) {
          if AlreadyBooked(Snap(), sales[i].id) { skipped := skipped + 1; } else { todo := todo + [sales[i]]; }
        }
      }
      assert sales[..|sales|] == sales;
    }

    /**
     The script: the booking pass, then the reconciling pass, with as many
     commits as it lives to make. One that reaches its end has counted every
     pending sale once, as booked or as skipped.
     */
    method BackfillPendingSales(sales: seq<Sale>, pending: Sale -> bool, clock: nat -> nat -> int, commits: nat)
      returns (alive: bool, left: nat, booked: nat, skipped: nat)
      modifies this`journals, this`ar, this`next
      ensures Process(old(Snap()), sales, pending, clock, commits) == if alive then Reached(Snap(), left) else Stopped(Snap())
      ensures alive ==> booked + skipped == |Filter(sales, pending)|
    {
      ghost var before := Snap();
      booked, left := 0, commits;
      var todo;
      todo, skipped := SalesToBook(sales, pending);
      ghost var total := |todo| + skipped;
      for i := 0 to |todo|
        invariant BookAll(Snap(), todo[i..], pending, clock, left) == BookAll(before, todo, pending, clock, commits)
        invariant booked + skipped == total - |todo| + i
      {
        assert todo[i..][0] == todo[i] && todo[i..][1..] == todo[i + 1..];
        var done;
        alive, left, done := BookOne(todo[i], pending, clock(todo[i].id), left);
        if !alive { return; }
        if done { booked := booked + 1; } else { skipped := skipped + 1; }
      }
      assert todo[|todo|..] == [];
      alive, left := ReconcileSubledger(sales, pending, clock, left);
    }

    /** reconcile_subledger: every pending sale that has a journal gets its row. */
    method ReconcileSubledger(sales: seq<Sale>, pending: Sale -> bool, clock: nat -> nat -> int, commits: nat)
      returns (alive: bool, left: nat)
      modifies this`ar, this`next
      ensures ReconcileAll(old(Snap()), Filter(sales, BookedPending(old(Snap()), pending)), clock, commits)
           == if alive then Reached(Snap(), left) else Stopped(Snap())
    {
      left := commits;
      ghost var before := Snap();
      var todo := Filter(sales, BookedPending(Snap(), pending));
      for i := 0 to |todo|
        invariant ReconcileAll(Snap(), todo[i..], clock, left) == ReconcileAll(before, todo, clock, commits)
      {
        assert todo[i..][0] == todo[i] && todo[i..][1..] == todo[i + 1..];
        alive, left := EnsureReceivable(todo[i], clock(todo[i].id)(0), left);
        if !alive { return; }
      }
      assert todo[|todo|..] == [];
      alive := true;
    }

    // ---- the opening-journal migration ----

    /** The guarded header insert of one half. */
    method InsertHeaders(rows: seq<Row>, side: Side)
      modifies this`journals, this`next
      ensures journals == old(journals) + Headers(old(journals), rows, side, old(next))
      ensures next == old(next) + |Headers(old(journals), rows, side, old(next))|
    {
      var js := journals;
      ghost var hs := Headers(js, rows, side, next);
      for i := 0 to |rows|
        invariant journals + Headers(js, rows[i..], side, next) == js + hs
        invariant next + |Headers(js, rows[i..], side, next)| == old(next) + |hs|
      {
        assert rows[i..][0] == rows[i] && rows[i..][1..] == rows[i + 1..];
        ghost var before := journals;
        if !Opened(js, side.kind, rows[i].id) {
          ghost var rest := Headers(js, rows[i + 1..], side, next + 1);
          journals := journals + [OpeningHeader(side, rows[i], next)];
          next := next + 1;
          assert before + ([journals[|before|]] + rest) == journals + rest;
        }
      }
      assert rows[|rows|..] == [];
    }

    /** One unguarded line insert: each opening journal that joins a row gets another line. */
    method InsertLines(rows: seq<Row>, kind: RefKind, mk: (Row, Option<int>) -> seq<Line>)
      modifies this`journals
      ensures journals == Map(old(journals), Insert(rows, kind, mk))
    {
      for i := 0 to |journals|
        invariant |journals| == |old(journals)|
        invariant forall k :: 0 <= k < i ==> journals[k] == Insert(rows, kind, mk)(old(journals)[k])
        invariant forall k :: i <= k < |journals| ==> journals[k] == old(journals)[k]
      {
        var joined := Joined(rows, kind, journals[i]);
        if joined.Some? {
          journals := journals[i := journals[i].(lines := journals[i].lines + mk(joined.value, journals[i].at))];
        }
      }
      assert journals == Map(old(journals), Insert(rows, kind, mk));
    }

    method OpenSide(rows: seq<Row>, side: Side)
      modifies this`journals, this`next
      ensures Snap() == Opening.OpenSide(old(Snap()), rows, side)
    {
      if side.headers {
        InsertHeaders(rows, side);
      } else {
        assert journals + [] == journals;
      }
      InsertLines(rows, side.kind, side.first);
      InsertLines(rows, side.kind, side.second);
    }

    method MigrateOpenings()
      modifies this`journals, this`next
      ensures Snap() == Migrate(old(Snap()))
    {
      OpenSide(ar, ArSide(chart));
      OpenSide(ap, ApSide(chart));
    }
  }
}
