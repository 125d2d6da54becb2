/** What each tax account has collected, remitted and still owes, and the remittance route. */
module Taxes {
  import opened Results
  import opened Sums
  import opened Ledger
  import opened Posting

  /** 0.009 naira. */
  const REMIT_SLACK := 0.9

  datatype OwedLine = OwedLine(code: string, collected: int, remitted: int, owed: int)

  function CodeOf(t: Tax): string {
    match t.code case None => OTHER_TAX case Some(c) => if c == "" then OTHER_TAX else c
  }

  /** Some active tax is booked to the account with this code. */
  predicate Listed(taxes: seq<Tax>, code: string) {
    exists t :: t in taxes && t.active && TaxAccountIs(t.code, code)
  }

  function CreditOn(a: nat): Line -> int {
    (l: Line) => if l.account == a && l.posted then l.credit else 0
  }

  function DebitOn(a: nat): Line -> int {
    (l: Line) => if l.account == a && l.posted then l.debit else 0
  }

  function JCredit(a: nat, store: Option<nat>): Journal -> int {
    (j: Journal) => if InStore(j, store) then Sum(j.lines, CreditOn(a)) else 0
  }

  function JDebit(a: nat, store: Option<nat>): Journal -> int {
    (j: Journal) => if InStore(j, store) then Sum(j.lines, DebitOn(a)) else 0
  }

  function JRemitted(a: nat, store: Option<nat>): Journal -> int {
    (j: Journal) => if InStore(j, store) && j.kind == TaxRemittanceRef then Sum(j.lines, DebitOn(a)) else 0
  }

  function Collected(s: State, a: nat, store: Option<nat>): int {
    Sum(s.journals, JCredit(a, store))
  }

  function Remitted(s: State, a: nat, store: Option<nat>): int {
    Sum(s.journals, JRemitted(a, store))
  }

  function StillOwed(s: State, a: nat, store: Option<nat>): int {
    Collected(s, a, store) - Sum(s.journals, JDebit(a, store))
  }

  function LineFor(s: State, a: Account, store: Option<nat>): OwedLine {
    OwedLine(a.code, Collected(s, a.id, store), Remitted(s, a.id, store), StillOwed(s, a.id, store))
  }

  /** What a line of the answer says: posted credits, posted debits of remittances, and posted credits less all posted debits. */
  ghost predicate Tells(l: OwedLine, s: State, a: Account, store: Option<nat>) {
    && l.code == a.code
    && l.collected == Sum(s.journals, JCredit(a.id, store))
    && l.remitted == Sum(s.journals, JRemitted(a.id, store))
    && l.owed == Sum(s.journals, JCredit(a.id, store)) - Sum(s.journals, JDebit(a.id, store))
  }

  ghost predicate Covers(codes: seq<string>, taxes: seq<Tax>) {
    && (forall i, j :: 0 <= i < j < |codes| ==> codes[i] != codes[j])
    && (forall c :: c in codes <==> Listed(taxes, c))
  }

  lemma ListedAppend(taxes: seq<Tax>, t: Tax, code: string)
    ensures Listed(taxes + [t], code) <==> Listed(taxes, code) || (t.active && CodeOf(t) == code)
  {
    assert forall u :: u in taxes + [t] <==> u in taxes || u == t;
  }

  /** The `codes` dict of get_taxes_owed: taxes that share an account share one entry. */
  method TaxCodes(taxes: seq<Tax>) returns (codes: seq<string>)
    ensures Covers(codes, taxes)
  {
    codes := [];
    var i := 0;
    while i < |taxes|
      invariant i <= |taxes|
      invariant Covers(codes, taxes[..i])
    {
      var t := taxes[i];
      assert taxes[..i + 1] == taxes[..i] + [t];
      forall c
        ensures Listed(taxes[..i + 1], c) <==> Listed(taxes[..i], c) || (t.active && CodeOf(t) == c)
      {
        ListedAppend(taxes[..i], t, c);
      }
      if t.active && CodeOf(t) !in codes {
        codes := codes + [CodeOf(t)];
      }
      i := i + 1;
    }
    assert taxes[..|taxes|] == taxes;
  }

  function OwedLines(s: State, code: string, store: Option<nat>): seq<OwedLine> {
    match AccountByCode(s.chart, code) case None => [] case Some(a) => [LineFor(s, a, store)]
  }

  function OwedOf(s: State, store: Option<nat>): string -> seq<OwedLine> {
    (code: string) => OwedLines(s, code, store)
  }

  function LinesFor(s: State, codes: seq<string>, store: Option<nat>): seq<OwedLine> {
    FlatMap(codes, OwedOf(s, store))
  }

  lemma {:induction false} LinesForCodes(s: State, codes: seq<string>, store: Option<nat>)
    requires forall i, j :: 0 <= i < j < |codes| ==> codes[i] != codes[j]
    ensures var lines := LinesFor(s, codes, store);
            && (forall i, j :: 0 <= i < j < |lines| ==> lines[i].code != lines[j].code)
            && (forall l :: l in lines ==>
                  && l.code in codes
                  && AccountByCode(s.chart, l.code).Some?
                  && l == LineFor(s, AccountByCode(s.chart, l.code).value, store))
            && (forall c :: c in codes && AccountByCode(s.chart, c).Some?
                            ==> LineFor(s, AccountByCode(s.chart, c).value, store) in lines)
  {
    if codes != [] {
      LinesForCodes(s, codes[1..], store);
      assert codes[0] !in codes[1..];
    }
  }

  /** One line for each listed account in the chart, each account once, each with its ledger figures. */
  method GetTaxesOwed(s: State, store: Option<nat>) returns (lines: seq<OwedLine>)
    ensures forall i, j :: 0 <= i < j < |lines| ==> lines[i].code != lines[j].code
    ensures forall l :: l in lines ==>
              && Listed(s.taxes, l.code)
              && AccountByCode(s.chart, l.code).Some?
              && l == LineFor(s, AccountByCode(s.chart, l.code).value, store)
              && Tells(l, s, AccountByCode(s.chart, l.code).value, store)
    ensures forall c :: Listed(s.taxes, c) && AccountByCode(s.chart, c).Some?
                        ==> LineFor(s, AccountByCode(s.chart, c).value, store) in lines
  {
    var codes := TaxCodes(s.taxes);
    lines := [];
    var i := 0;
    while i < |codes|
      invariant i <= |codes|
      invariant lines == LinesFor(s, codes[..i], store)
    {
      assert codes[..i + 1] == codes[..i] + [codes[i]];
      FlatMapAppend(codes[..i], codes[i], OwedOf(s, store));
      var account := AccountByCode(s.chart, codes[i]);
      if account.Some? {
        lines := lines + [LineFor(s, account.value, store)];
      }
      i := i + 1;
    }
    assert codes[..|codes|] == codes;
    LinesForCodes(s, codes, store);
  }

  // ---- remitting ----

  function CreditAccount(chart: seq<Account>, payBy: string): Option<Account> {
    if payBy == "bank" && AccountByCode(chart, BANK).Some? then AccountByCode(chart, BANK)
    else AccountByCode(chart, CASH)
  }

  function RemitHeader(store: Option<nat>): Header {
    Header("Tax remittance", None, TaxRemittanceRef, store)
  }

  /** The posting that follows an accepted check. */
  function PostRemittance(s: State, tax: Account, from: Account, x: real, store: Option<nat>, now: int): Result<State> {
    PostJournal(s, RemitHeader(store), [Dr(tax, x, "Tax remitted"), Cr(from, x, "Paid out")], now)
  }

  function RemitTax(s: State, code: string, x: real, payBy: string, store: Option<nat>, now: int): Result<State> {
    if x <= 0.0 then Err(NotPositive)
    else if payBy != "cash" && payBy != "bank" then Err(BadMethod)
    else if store.None? then Err(StoreRequired)
    else if !Listed(s.taxes, code) then Err(NoTaxOwed)
    else match AccountByCode(s.chart, code)
         case None => Err(NoTaxOwed)
         case Some(tax) =>
           if x > StillOwed(s, tax.id, store) as real + REMIT_SLACK then Err(ExceedsOwed)
           else match CreditAccount(s.chart, payBy)
                case None => Err(AccountMissing)
                case Some(from) => PostRemittance(s, tax, from, x, store, now)
  }

  lemma RemitShape(s: State, code: string, x: real, payBy: string, store: Option<nat>, now: int) returns (tax: Account, from: Account)
    requires RemitTax(s, code, x, payBy, store, now).Ok?
    ensures 0.0 < x <= StillOwed(s, tax.id, store) as real + REMIT_SLACK && store.Some?
    ensures AccountByCode(s.chart, code) == Some(tax) && CreditAccount(s.chart, payBy) == Some(from) && Listed(s.taxes, code)
    ensures RemitTax(s, code, x, payBy, store, now).value
         == s.(next := s.next + 1,
               journals := s.journals + [NewJournal(s.next, RemitHeader(store), Pair(tax, from, Round(x), "Tax remitted", "Paid out", now), now)])
  {
    tax, from := AccountByCode(s.chart, code).value, CreditAccount(s.chart, payBy).value;
    PostPair(s, RemitHeader(store), tax, from, x, "Tax remitted", "Paid out", now);
  }

  lemma PairOn(d: Account, c: Account, x: int, dd: string, cd: string, at: int, a: nat)
    ensures Sum(Pair(d, c, x, dd, cd, at), CreditOn(a)) == if c.id == a then x else 0
    ensures Sum(Pair(d, c, x, dd, cd, at), DebitOn(a)) == if d.id == a then x else 0
  {
    var ls := Pair(d, c, x, dd, cd, at);
    SumPair(ls[0], ls[1], CreditOn(a));
    SumPair(ls[0], ls[1], DebitOn(a));
  }

  lemma AppendOwed(s: State, s': State, j: Journal, a: nat, store: Option<nat>)
    requires s'.journals == s.journals + [j]
    ensures Collected(s', a, store) == Collected(s, a, store) + JCredit(a, store)(j)
    ensures Remitted(s', a, store) == Remitted(s, a, store) + JRemitted(a, store)(j)
    ensures StillOwed(s', a, store) == StillOwed(s, a, store) + JCredit(a, store)(j) - JDebit(a, store)(j)
  {
    SumAppend(s.journals, j, JCredit(a, store));
    SumAppend(s.journals, j, JRemitted(a, store));
    SumAppend(s.journals, j, JDebit(a, store));
  }

  /** A posted remittance lowers what its own store still owes, and nothing else. */
  lemma RemittanceEffect(s: State, tax: Account, from: Account, x: real, store: Option<nat>, now: int, a: nat, other: Option<nat>)
    requires tax.id != from.id && from.id != a && store.Some?
    ensures PostRemittance(s, tax, from, x, store, now).Ok?
    ensures var s' := PostRemittance(s, tax, from, x, store, now).value;
            var paid := if a == tax.id && (other.None? || other == store) then Round(x) else 0;
            && Collected(s', a, other) == Collected(s, a, other)
            && Remitted(s', a, other) == Remitted(s, a, other) + paid
            && StillOwed(s', a, other) == StillOwed(s, a, other) - paid
  {
    PostPair(s, RemitHeader(store), tax, from, x, "Tax remitted", "Paid out", now);
    PairOn(tax, from, Round(x), "Tax remitted", "Paid out", now, a);
    var s' := PostRemittance(s, tax, from, x, store, now).value;
    AppendOwed(s, s', s'.journals[|s.journals|], a, other);
  }

  /**
   What an accepted remittance does to the answers: in its own store, and in the
   answer without a store, the line of its account shows more remitted and less
   owed by the stored amount, and the same collected; in other stores, and for
   other accounts, nothing changes.
   */
  lemma RemittanceShows(s: State, code: string, x: real, payBy: string, from: Option<nat>, now: int,
                        a: Account, store: Option<nat>, l: OwedLine, l': OwedLine)
    requires ChartOk(s.chart) && a in s.chart && a.code != CASH && a.code != BANK
    requires RemitTax(s, code, x, payBy, from, now).Ok?
    requires Tells(l, s, a, store) && Tells(l', RemitTax(s, code, x, payBy, from, now).value, a, store)
    ensures var paid := if a.code == code && (store.None? || store == from) then Round(x) else 0;
            l'.code == l.code && l'.collected == l.collected && l'.remitted == l.remitted + paid && l'.owed == l.owed - paid
  {
    var tax, payer := RemitShape(s, code, x, payBy, from, now);
    SameIdSameAccount(s.chart, tax, a);
    SameIdSameAccount(s.chart, payer, a);
    var s' := RemitTax(s, code, x, payBy, from, now).value;
    PairOn(tax, payer, Round(x), "Tax remitted", "Paid out", now, a.id);
    AppendOwed(s, s', s'.journals[|s.journals|], a.id, store);
  }

  // ---- the check takes no lock ----

  /** A request as its posting finds it: what to pay, from where, and when. */
  datatype Remittance = Remittance(amount: real, from: Account, now: int)

  /** The request passed the check against these books. */
  predicate Passes(s: State, tax: Account, store: Option<nat>, r: Remittance) {
    r.from.id != tax.id && 0.0 < r.amount <= StillOwed(s, tax.id, store) as real + REMIT_SLACK
  }

  /** The postings of requests that were checked earlier, in whatever order they commit. */
  function PostEach(s: State, tax: Account, store: Option<nat>, rs: seq<Remittance>): State
    decreases |rs|
  {
    if rs == [] then s
    else
      PostEach(match PostRemittance(s, tax, rs[0].from, rs[0].amount, store, rs[0].now) case Ok(s') => s' case Err(_) => s,
               tax, store, rs[1..])
  }

  function Stored(): Remittance -> int {
    (r: Remittance) => Round(r.amount)
  }

  lemma {:induction false} EachIsPosted(s: State, tax: Account, store: Option<nat>, rs: seq<Remittance>)
    requires store.Some? && forall r :: r in rs ==> r.from.id != tax.id
    ensures var s' := PostEach(s, tax, store, rs);
            && |s'.journals| == |s.journals| + |rs|
            && StillOwed(s', tax.id, store) == StillOwed(s, tax.id, store) - Sum(rs, Stored())
            && Remitted(s', tax.id, store) == Remitted(s, tax.id, store) + Sum(rs, Stored())
    decreases |rs|
  {
    if rs != [] {
      var r := rs[0];
      assert r in rs;
      RemittanceEffect(s, tax, r.from, r.amount, store, r.now, tax.id, store);
      PostPair(s, RemitHeader(store), tax, r.from, r.amount, "Tax remitted", "Paid out", r.now);
      EachIsPosted(PostRemittance(s, tax, r.from, r.amount, store, r.now).value, tax, store, rs[1..]);
    }
  }

  /**
   Any number of remittances that pass the check against the same books are all
   posted, and together they overdraw the account exactly when their stored
   amounts exceed what was owed.
   */
  lemma ConcurrentRemittances(s: State, tax: Account, store: Option<nat>, rs: seq<Remittance>)
    requires store.Some? && forall r :: r in rs ==> Passes(s, tax, store, r)
    ensures var s' := PostEach(s, tax, store, rs);
            && |s'.journals| == |s.journals| + |rs|
            && (StillOwed(s', tax.id, store) < 0 <==> Sum(rs, Stored()) > StillOwed(s, tax.id, store))
  {
    forall r | r in rs
      ensures r.from.id != tax.id
    {
      assert Passes(s, tax, store, r);
    }
    EachIsPosted(s, tax, store, rs);
  }

  // ---- two stores that owe 100 each ----

  function TaxAccount(): Account {
    Account(2, VAT, Liability)
  }

  function CashAccount(): Account {
    Account(1, CASH, Asset)
  }

  function SampleBooks(): State {
    var s := Empty([CashAccount(), TaxAccount()], [Tax("VAT", Some(VAT), true)], 9);
    var one := Pair(CashAccount(), TaxAccount(), 100, "Cash", "VAT", 0);
    AddJournal(AddJournal(s, Header("Sale 1", None, SaleRef, Some(1)), one, 0), Header("Sale 2", None, SaleRef, Some(2)), one, 0)
  }

  lemma SampleOwes()
    ensures StillOwed(SampleBooks(), 2, Some(1)) == 100 && StillOwed(SampleBooks(), 2, Some(2)) == 100
    ensures StillOwed(SampleBooks(), 2, None) == 200
  {
    var js := SampleBooks().journals;
    assert js == [js[0], js[1]];
    PairOn(CashAccount(), TaxAccount(), 100, "Cash", "VAT", 0, 2);
    forall store: Option<nat>
      ensures StillOwed(SampleBooks(), 2, store) == (if InStore(js[0], store) then 100 else 0) + (if InStore(js[1], store) then 100 else 0)
    {
      SumPair(js[0], js[1], JCredit(2, store));
      SumPair(js[0], js[1], JDebit(2, store));
    }
  }

  /** Two remittances of 100 pass against the 100 store 1 owes, both post, and the account is overdrawn by 100. */
  lemma TwoRemittancesOverdraw()
    ensures var r := Remittance(100.0, CashAccount(), 5);
            && Passes(SampleBooks(), TaxAccount(), Some(1), r)
            && StillOwed(PostEach(SampleBooks(), TaxAccount(), Some(1), [r, r]), 2, Some(1)) == -100
  {
    var r := Remittance(100.0, CashAccount(), 5);
    SampleOwes();
    RoundWhole(100);
    EachIsPosted(SampleBooks(), TaxAccount(), Some(1), [r, r]);
    SumPair(r, r, Stored());
  }

  /** After store 1 has remitted its 100 it owes nothing, and the answer says 100 remains. */
  lemma RemainderCountsOtherStores()
    ensures var s := PostEach(SampleBooks(), TaxAccount(), Some(1), [Remittance(100.0, CashAccount(), 5)]);
            StillOwed(s, 2, Some(1)) == 0 && StillOwed(s, 2, None) == 100
  {
    var r := Remittance(100.0, CashAccount(), 5);
    SampleOwes();
    RoundWhole(100);
    assert [r][1..] == [];
    RemittanceEffect(SampleBooks(), TaxAccount(), CashAccount(), 100.0, Some(1), 5, 2, Some(1));
    RemittanceEffect(SampleBooks(), TaxAccount(), CashAccount(), 100.0, Some(1), 5, 2, None);
    assert PostEach(SampleBooks(), TaxAccount(), Some(1), [r])
        == PostRemittance(SampleBooks(), TaxAccount(), CashAccount(), 100.0, Some(1), 5).value;
  }

  function JOwedElsewhere(a: nat, store: Option<nat>): Journal -> int {
    (j: Journal) => if InStore(j, store) then 0 else Sum(j.lines, CreditOn(a)) - Sum(j.lines, DebitOn(a))
  }

  /** The figure returned after a remittance is tenant-wide: the store's own plus what every other store owes. */
  lemma ReportedRemainder(s: State, a: nat, store: Option<nat>)
    ensures StillOwed(s, a, None) == StillOwed(s, a, store) + Sum(s.journals, JOwedElsewhere(a, store))
  {
    var here := (j: Journal) => JCredit(a, store)(j) - JDebit(a, store)(j);
    var all := (j: Journal) => JCredit(a, None)(j) - JDebit(a, None)(j);
    SumPlus(s.journals, JCredit(a, store), here, JDebit(a, store));
    SumPlus(s.journals, JCredit(a, None), all, JDebit(a, None));
    SumPlus(s.journals, all, here, JOwedElsewhere(a, store));
  }
}
