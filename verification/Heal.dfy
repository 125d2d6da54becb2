/**
 scripts/heal_duplicate_ar.py: a receivable with an older row of the same
 number and amount is a duplicate. Its payment journals are reversed, its
 ledger rows and the row itself are deleted; the script may be run again.
 */
module Heal {
  import opened Results
  import opened Sums
  import opened Ledger
  import opened Runs

  predicate Older(r: Row, q: Row) {
    q.number == r.number && q.amount == r.amount && q.createdAt < r.createdAt
  }

  predicate HasOlder(rows: seq<Row>, r: Row) {
    exists q :: q in rows && Older(r, q)
  }

  /** An older row with the same number and the same amount is there. */
  ghost predicate OlderTwin(rows: seq<Row>, r: Row) {
    exists q :: q in rows && q.number == r.number && q.amount == r.amount && q.createdAt < r.createdAt
  }

  /** What the self-join returns, each row once, in whatever order. */
  ghost predicate Finds(rows: seq<Row>, dupes: seq<Row>) {
    && (forall r :: r in dupes <==> r in rows && OlderTwin(rows, r))
    && UniqueRows(dupes)
  }

  method FindDuplicates(rows: seq<Row>) returns (dupes: seq<Row>)
    requires UniqueRows(rows)
    ensures Finds(rows, dupes)
  {
    dupes := [];
    for i := 0 to |rows|
      invariant forall r :: r in dupes <==> r in rows[..i] && HasOlder(rows, r)
      invariant UniqueRows(dupes)
    {
      var found := false;
      for k := 0 to |rows|
        invariant found <==> exists m :: 0 <= m < k && Older(rows[i], rows[m])
      {
        found := found || Older(rows[i], rows[k]);
      }
      assert found <==> HasOlder(rows, rows[i]);
      assert forall r :: r in rows[..i + 1] <==> r in rows[..i] || r == rows[i];
      if found {
        assert forall r :: r in rows[..i] ==> r.id != rows[i].id;
        dupes := dupes + [rows[i]];
      }
    }
    assert rows[..|rows|] == rows;
  }

  function PaysOff(id: nat): Journal -> bool {
    (j: Journal) => j.ref == Some(id) && j.kind == ArPaymentRef && j.posted
  }

  function PaymentJournals(js: seq<Journal>, id: nat): seq<Journal> {
    Filter(js, PaysOff(id))
  }

  /** The skip rule: a reversal names one of the payment journals, or the row itself when it has none. */
  predicate Reversed(js: seq<Journal>, d: Row) {
    exists j :: j in js && j.kind == ArReversalRef && NamesPayment(js, d, j)
  }

  predicate NamesPayment(js: seq<Journal>, d: Row, j: Journal) {
    if PaymentJournals(js, d.id) == [] then j.ref == Some(d.id)
    else exists p :: p in PaymentJournals(js, d.id) && j.ref == Some(p.id)
  }

  function Swap(now: int): Line -> Line {
    (l: Line) => Line(l.account, l.code, l.credit, l.debit, l.desc + " (reversal)", true, Some(now))
  }

  function Reversal(p: Journal, id: nat, d: Row, now: int): Journal {
    Journal(id, "Reversal: duplicate receivable for " + d.number, Some(p.id), ArReversalRef, true, Some(now), d.store,
            Map(p.lines, Swap(now)))
  }

  function AddReversals(s: State, ps: seq<Journal>, d: Row, now: int): State
    decreases |ps|
  {
    if ps == [] then s
    else AddReversals(s.(journals := s.journals + [Reversal(ps[0], s.next, d, now)], next := s.next + 1), ps[1..], d, now)
  }

  function NotRow(id: nat): Row -> bool {
    (r: Row) => r.id != id
  }

  function NotPaying(id: nat): Payment -> bool {
    (p: Payment) => p.row != id
  }

  /**
   One duplicate. Pending inserts are not flushed before the commit, so the
   journals it looks at are those the script started with.
   */
  function HealOne(s: State, js: seq<Journal>, d: Row, now: int): State {
    if Reversed(js, d) then s
    else AddReversals(s, PaymentJournals(js, d.id), d, now)
           .(arPays := Filter(s.arPays, NotPaying(d.id)), ar := Filter(s.ar, NotRow(d.id)))
  }

  function HealAll(s: State, js: seq<Journal>, dupes: seq<Row>, now: int): State
    decreases |dupes|
  {
    if dupes == [] then s else HealAll(HealOne(s, js, dupes[0], now), js, dupes[1..], now)
  }

  /** One run of the script with --apply. */
  function Heal(s: State, dupes: seq<Row>, now: int): State {
    HealAll(s, s.journals, dupes, now)
  }

  // ---- the dry pass ----

  function OnReceivableCode(): Line -> int {
    (l: Line) => if l.code == RECEIVABLE then l.debit - l.credit else 0
  }

  function ReceivableByCode(): Journal -> int {
    (j: Journal) => Sum(j.lines, OnReceivableCode())
  }

  /** A figure of the payment journals of a duplicate that is not skipped. */
  function Off(js: seq<Journal>, g: Journal -> int): Row -> int {
    (d: Row) => if Reversed(js, d) then 0 else Sum(PaymentJournals(js, d.id), g)
  }

  method ReceivableLines(entries: seq<Line>) returns (net: int)
    ensures net == Sum(entries, OnReceivableCode())
  {
    net := 0;
    for m := 0 to |entries|
      invariant net == Sum(entries[..m], OnReceivableCode())
    {
      SumAppend(entries[..m], entries[m], OnReceivableCode());
      assert entries[..m + 1] == entries[..m] + [entries[m]];
      if entries[m].code == RECEIVABLE {
        net := net + entries[m].debit - entries[m].credit;
      }
    }
    assert entries[..|entries|] == entries;
  }

  method ReceivableOf(journals: seq<Journal>) returns (net: int)
    ensures net == Sum(journals, ReceivableByCode())
  {
    net := 0;
    for k := 0 to |journals|
      invariant net == Sum(journals[..k], ReceivableByCode())
    {
      SumAppend(journals[..k], journals[k], ReceivableByCode());
      assert journals[..k + 1] == journals[..k] + [journals[k]];
      var of := ReceivableLines(journals[k].lines);
      net := net + of;
    }
    assert journals[..|journals|] == journals;
  }

  /** The figure the dry run prints as the 1100 credit to reverse. */
  method DryRun(js: seq<Journal>, dupes: seq<Row>) returns (netCash: int)
    ensures netCash == Sum(dupes, Off(js, ReceivableByCode()))
  {
    netCash := 0;
    for i := 0 to |dupes|
      invariant netCash == Sum(dupes[..i], Off(js, ReceivableByCode()))
    {
      SumAppend(dupes[..i], dupes[i], Off(js, ReceivableByCode()));
      assert dupes[..i + 1] == dupes[..i] + [dupes[i]];
      if !Reversed(js, dupes[i]) {
        var of := ReceivableOf(PaymentJournals(js, dupes[i].id));
        netCash := netCash + of;
      }
    }
    assert dupes[..|dupes|] == dupes;
  }

  // ---- what a run does to the journals ----

  /** A figure the reversal of a journal takes back. */
  ghost predicate TakesBack(f: Journal -> int, g: Journal -> int, now: int) {
    forall p: Journal, id: nat, d: Row :: f(Reversal(p, id, d, now)) == -g(p)
  }

  lemma {:induction false} AddReversalsSum(s: State, ps: seq<Journal>, d: Row, now: int, f: Journal -> int, g: Journal -> int)
    requires TakesBack(f, g, now)
    ensures var s' := AddReversals(s, ps, d, now);
            && Sum(s'.journals, f) == Sum(s.journals, f) - Sum(ps, g)
            && s' == s.(journals := s'.journals, next := s'.next)
            && s.journals <= s'.journals
            && forall k :: |s.journals| <= k < |s'.journals| ==> s'.journals[k].kind == ArReversalRef
    decreases |ps|
  {
    if ps != [] {
      var j := Reversal(ps[0], s.next, d, now);
      SumAppend(s.journals, j, f);
      AddReversalsSum(s.(journals := s.journals + [j], next := s.next + 1), ps[1..], d, now, f, g);
    }
  }

  lemma {:induction false} HealAllSum(s: State, js: seq<Journal>, dupes: seq<Row>, now: int, f: Journal -> int, g: Journal -> int)
    requires TakesBack(f, g, now)
    ensures var s' := HealAll(s, js, dupes, now);
            && Sum(s'.journals, f) == Sum(s.journals, f) - Sum(dupes, Off(js, g))
            && s'.chart == s.chart && s'.ap == s.ap
            && s.journals <= s'.journals
            && forall k :: |s.journals| <= k < |s'.journals| ==> s'.journals[k].kind == ArReversalRef
    decreases |dupes|
  {
    if dupes != [] {
      if !Reversed(js, dupes[0]) {
        AddReversalsSum(s, PaymentJournals(js, dupes[0].id), dupes[0], now, f, g);
      }
      HealAllSum(HealOne(s, js, dupes[0], now), js, dupes[1..], now, f, g);
    }
  }

  lemma {:induction false} SwapNet(ls: seq<Line>, now: int, a: nat)
    ensures Sum(Map(ls, Swap(now)), OnAccount(a)) == -Sum(ls, OnAccount(a))
  {
    if ls != [] {
      SwapNet(ls[1..], now, a);
      assert Map(ls, Swap(now))[1..] == Map(ls[1..], Swap(now));
    }
  }

  lemma NetTakesBack(a: nat, now: int)
    ensures TakesBack(JOn(a), JOn(a), now)
  {
    forall p: Journal, id: nat, d: Row
      ensures JOn(a)(Reversal(p, id, d, now)) == -JOn(a)(p)
    {
      SwapNet(p.lines, now, a);
    }
  }

  // ---- every reversed journal nets to zero ----

  /** What the reversals of journal `p` book on account `a`. */
  function ReversalOn(p: nat, a: nat): Journal -> int {
    (j: Journal) => if j.kind == ArReversalRef && j.ref == Some(p) then Sum(j.lines, OnAccount(a)) else 0
  }

  function Itself(p: nat, a: nat): Journal -> int {
    (j: Journal) => if j.id == p then Sum(j.lines, OnAccount(a)) else 0
  }

  lemma ReversalTakesBack(p: nat, a: nat, now: int)
    ensures TakesBack(ReversalOn(p, a), Itself(p, a), now)
  {
    forall q: Journal, id: nat, d: Row
      ensures ReversalOn(p, a)(Reversal(q, id, d, now)) == -Itself(p, a)(q)
    {
      SwapNet(q.lines, now, a);
    }
  }

  lemma {:induction false} ItselfIn(js: seq<Journal>, p: Journal, q: Journal -> bool, a: nat)
    requires UniqueJournals(js) && p in js && q(p)
    ensures Sum(Filter(js, q), Itself(p.id, a)) == Sum(p.lines, OnAccount(a))
  {
    var f := (j: Journal) => if q(j) then Itself(p.id, a)(j) else 0;
    FilterSum(js, q, Itself(p.id, a), f);
    var i :| 0 <= i < |js| && js[i] == p;
    SumOnly(js, i, f);
  }

  /** A payment journal of one row is no payment journal of another. */
  lemma OthersLeaveIt(js: seq<Journal>, p: Journal, e: nat, a: nat)
    requires UniqueJournals(js) && p in js && p.ref != Some(e)
    ensures Sum(PaymentJournals(js, e), Itself(p.id, a)) == 0
  {
    FilterIn(js, PaysOff(e));
    forall j | j in PaymentJournals(js, e)
      ensures Itself(p.id, a)(j) == 0
    {
      var x :| 0 <= x < |js| && js[x] == j;
      var y :| 0 <= y < |js| && js[y] == p;
    }
    SumZero(PaymentJournals(js, e), Itself(p.id, a));
  }

  /** On every account, each payment journal of a processed duplicate and its reversals come to zero. */
  lemma ReversedToZero(s: State, dupes: seq<Row>, now: int, d: Row, p: Journal, a: nat)
    requires UniqueJournals(s.journals) && Finds(s.ar, dupes)
    requires d in dupes && !Reversed(s.journals, d) && p in PaymentJournals(s.journals, d.id)
    ensures JOn(a)(p) + Sum(Heal(s, dupes, now).journals, ReversalOn(p.id, a)) == 0
  {
    var js := s.journals;
    ReversalTakesBack(p.id, a, now);
    HealAllSum(s, js, dupes, now, ReversalOn(p.id, a), Itself(p.id, a));
    FilterIn(js, PaysOff(d.id));
    forall j | j in js
      ensures ReversalOn(p.id, a)(j) == 0
    {
      assert j.kind == ArReversalRef ==> !NamesPayment(js, d, j);
    }
    SumZero(js, ReversalOn(p.id, a));
    var off := Off(js, Itself(p.id, a));
    forall e | e in dupes && e != d
      ensures off(e) == 0
    {
      OthersLeaveIt(js, p, e.id, a);
    }
    ItselfIn(js, p, PaysOff(d.id), a);
    var i :| 0 <= i < |dupes| && dupes[i] == d;
    SumOnly(dupes, i, off);
  }

  // ---- what a run does to the rows ----

  predicate Deleted(js: seq<Journal>, dupes: seq<Row>, id: nat) {
    exists d :: d in dupes && d.id == id && !Reversed(js, d)
  }

  function Kept(js: seq<Journal>, dupes: seq<Row>): Row -> bool {
    (r: Row) => !Deleted(js, dupes, r.id)
  }

  function PayKept(js: seq<Journal>, dupes: seq<Row>): Payment -> bool {
    (p: Payment) => !Deleted(js, dupes, p.row)
  }

  lemma DeletedStep(js: seq<Journal>, dupes: seq<Row>, id: nat)
    requires dupes != []
    ensures Deleted(js, dupes, id) <==> (dupes[0].id == id && !Reversed(js, dupes[0])) || Deleted(js, dupes[1..], id)
  {
  }

  lemma {:induction false} HealAllRows(s: State, js: seq<Journal>, dupes: seq<Row>, now: int)
    ensures var s' := HealAll(s, js, dupes, now);
            && s'.ar == Filter(s.ar, Kept(js, dupes))
            && s'.arPays == Filter(s.arPays, PayKept(js, dupes))
    decreases |dupes|
  {
    if dupes == [] {
      FilterAll(s.ar, Kept(js, dupes));
      FilterAll(s.arPays, PayKept(js, dupes));
    } else {
      var d := dupes[0];
      var s1 := HealOne(s, js, d, now);
      HealAllRows(s1, js, dupes[1..], now);
      forall id: nat
        ensures Deleted(js, dupes, id) <==> (d.id == id && !Reversed(js, d)) || Deleted(js, dupes[1..], id)
      {
        DeletedStep(js, dupes, id);
      }
      if Reversed(js, d) {
        FilterSame(s.ar, Kept(js, dupes[1..]), Kept(js, dupes));
        FilterSame(s.arPays, PayKept(js, dupes[1..]), PayKept(js, dupes));
      } else {
        FilterTwice(s.ar, NotRow(d.id), Kept(js, dupes[1..]), Kept(js, dupes));
        FilterTwice(s.arPays, NotPaying(d.id), PayKept(js, dupes[1..]), PayKept(js, dupes));
      }
    }
  }

  lemma {:induction false} FilterAll<T>(s: seq<T>, p: T -> bool)
    requires forall x :: x in s ==> p(x)
    ensures Filter(s, p) == s
  {
    if s != [] {
      FilterAll(s[1..], p);
    }
  }

  // ---- exactly the oldest stay ----

  function IsOldest(rows: seq<Row>): Row -> bool {
    (r: Row) => !HasOlder(rows, r)
  }

  /** The earliest row with the number and amount of `r`. */
  lemma {:induction false} Earliest(rows: seq<Row>, r: Row) returns (q: Row)
    requires exists x :: x in rows && x.number == r.number && x.amount == r.amount
    ensures q in rows && q.number == r.number && q.amount == r.amount
    ensures forall x :: x in rows && x.number == r.number && x.amount == r.amount ==> q.createdAt <= x.createdAt
  {
    var first, rest := rows[0], rows[1..];
    if exists x :: x in rest && x.number == r.number && x.amount == r.amount {
      q := Earliest(rest, r);
      if first.number == r.number && first.amount == r.amount && first.createdAt < q.createdAt {
        q := first;
      }
    } else {
      assert forall x :: x in rows && x != first ==> x in rest;
      q := first;
    }
  }

  lemma OldestSurvivor(rows: seq<Row>, r: Row)
    requires HasOlder(rows, r)
    ensures exists q :: q in rows && Older(r, q) && !HasOlder(rows, q)
  {
    var o :| o in rows && Older(r, o);
    var q := Earliest(rows, r);
    assert Older(r, q);
  }

  lemma {:induction false} FilterUniqueRows(rows: seq<Row>, p: Row -> bool)
    requires UniqueRows(rows)
    ensures UniqueRows(Filter(rows, p))
  {
    if rows != [] {
      FilterUniqueRows(rows[1..], p);
      FilterIn(rows[1..], p);
      var rest := Filter(rows[1..], p);
      forall k | 0 <= k < |rest|
        ensures rest[k].id != rows[0].id
      {
        assert rest[k] in rows[1..];
      }
    }
  }

  lemma OlderIsTwin(rows: seq<Row>, r: Row)
    ensures HasOlder(rows, r) <==> OlderTwin(rows, r)
  {
    if q :| q in rows && q.number == r.number && q.amount == r.amount && q.createdAt < r.createdAt {
      assert Older(r, q);
    }
  }

  lemma DeletedExactly(rows: seq<Row>, js: seq<Journal>, dupes: seq<Row>, r: Row)
    requires UniqueRows(rows) && Finds(rows, dupes) && r in rows
    ensures Deleted(js, dupes, r.id) <==> HasOlder(rows, r) && !Reversed(js, r)
  {
    if Deleted(js, dupes, r.id) {
      var d :| d in dupes && d.id == r.id && !Reversed(js, d);
      assert d in rows;
      assert d == r;
    }
    assert HasOlder(rows, r) ==> r in dupes;
  }

  ghost predicate NoReversals(js: seq<Journal>) {
    forall j :: j in js ==> j.kind != ArReversalRef
  }

  /** With no reversals beforehand every duplicate is processed: the rows without an older one stay. */
  lemma OldestStay(s: State, dupes: seq<Row>, now: int)
    requires UniqueRows(s.ar) && Finds(s.ar, dupes) && NoReversals(s.journals)
    ensures Heal(s, dupes, now).ar == Filter(s.ar, IsOldest(s.ar))
  {
    HealAllRows(s, s.journals, dupes, now);
    forall r | r in s.ar
      ensures Kept(s.journals, dupes)(r) == IsOldest(s.ar)(r)
    {
      DeletedExactly(s.ar, s.journals, dupes, r);
    }
    FilterSame(s.ar, Kept(s.journals, dupes), IsOldest(s.ar));
  }

  lemma OldestHaveNoOlder(rows: seq<Row>, kept: seq<Row>, more: seq<Row>)
    requires kept == Filter(rows, IsOldest(rows)) && Finds(kept, more)
    ensures more == []
  {
    FilterIn(rows, IsOldest(rows));
    forall r | r in kept
      ensures !HasOlder(kept, r)
    {
      assert IsOldest(rows)(r);
    }
    if more != [] {
      SomethingIn(more);
    }
  }

  lemma SomethingIn<T>(s: seq<T>)
    requires s != []
    ensures exists x :: x in s
  {
    assert s[0] in s;
  }

  /**
   With no reversals beforehand a run deletes exactly the rows that have an
   older row of the same number and amount: what stays are the earliest rows of
   each group, every deleted row has one of them, and the next run finds nothing.
   */
  lemma KeepsExactlyTheOldest(s: State, dupes: seq<Row>, now: int)
    requires UniqueRows(s.ar) && Finds(s.ar, dupes) && NoReversals(s.journals)
    ensures var s' := Heal(s, dupes, now);
            && (forall r :: r in s'.ar <==> r in s.ar && !OlderTwin(s.ar, r))
            && (forall r :: r in s.ar && r !in s'.ar ==> OlderTwin(s'.ar, r))
            && (forall more :: Finds(s'.ar, more) ==> more == [])
  {
    var s' := Heal(s, dupes, now);
    OldestStay(s, dupes, now);
    FilterIn(s.ar, IsOldest(s.ar));
    forall r | r in s.ar
      ensures r in s'.ar <==> !OlderTwin(s.ar, r)
      ensures r !in s'.ar ==> OlderTwin(s'.ar, r)
    {
      OlderIsTwin(s.ar, r);
      if HasOlder(s.ar, r) {
        OldestSurvivor(s.ar, r);
      }
    }
    forall more | Finds(s'.ar, more)
      ensures more == []
    {
      OldestHaveNoOlder(s.ar, s'.ar, more);
    }
  }

  /** The ledger rows that go are exactly those of the deleted rows. */
  lemma PaymentsGoWithTheirRows(s: State, dupes: seq<Row>, now: int, p: Payment)
    requires UniqueRows(s.ar) && Finds(s.ar, dupes) && p in s.arPays
    ensures var s' := Heal(s, dupes, now);
            p !in s'.arPays <==> exists r :: r in s.ar && r !in s'.ar && p.row == r.id
  {
    var s' := Heal(s, dupes, now);
    HealAllRows(s, s.journals, dupes, now);
    FilterIn(s.ar, Kept(s.journals, dupes));
    FilterIn(s.arPays, PayKept(s.journals, dupes));
    if p !in s'.arPays {
      var d :| d in dupes && d.id == p.row && !Reversed(s.journals, d);
      assert d in s.ar && !Kept(s.journals, dupes)(d);
    }
  }

  // ---- running it again ----

  lemma SamePayments(js: seq<Journal>, js': seq<Journal>, id: nat)
    requires js <= js' && forall k :: |js| <= k < |js'| ==> js'[k].kind == ArReversalRef
    ensures PaymentJournals(js', id) == PaymentJournals(js, id)
  {
    assert js' == js + js'[|js|..];
    FilterConcat(js, js'[|js|..], PaysOff(id));
    FilterNone(js'[|js|..], PaysOff(id));
  }

  lemma StaysReversed(js: seq<Journal>, js': seq<Journal>, d: Row)
    requires js <= js' && forall k :: |js| <= k < |js'| ==> js'[k].kind == ArReversalRef
    requires Reversed(js, d)
    ensures Reversed(js', d)
  {
    SamePayments(js, js', d.id);
    var j :| j in js && j.kind == ArReversalRef && NamesPayment(js, d, j);
    assert j in js' && NamesPayment(js', d, j);
  }

  lemma {:induction false} AllSkipped(s: State, js: seq<Journal>, dupes: seq<Row>, now: int)
    requires forall d :: d in dupes ==> Reversed(js, d)
    ensures HealAll(s, js, dupes, now) == s
  {
    if dupes != [] {
      AllSkipped(s, js, dupes[1..], now);
    }
  }

  /** Safe to re-run: from any books at all, a second run changes nothing. */
  lemma RerunChangesNothing(s: State, dupes: seq<Row>, now: int, again: seq<Row>, later: int)
    requires UniqueRows(s.ar) && Finds(s.ar, dupes) && Finds(Heal(s, dupes, now).ar, again)
    ensures Heal(Heal(s, dupes, now), again, later) == Heal(s, dupes, now)
  {
    var s' := Heal(s, dupes, now);
    HealAllRows(s, s.journals, dupes, now);
    FilterIn(s.ar, Kept(s.journals, dupes));
    NetTakesBack(0, now);
    HealAllSum(s, s.journals, dupes, now, JOn(0), JOn(0));
    forall d | d in again
      ensures Reversed(s'.journals, d)
    {
      var q :| q in s'.ar && Older(d, q);
      assert HasOlder(s.ar, d);
      DeletedExactly(s.ar, s.journals, dupes, d);
      StaysReversed(s.journals, s'.journals, d);
    }
    AllSkipped(s', s'.journals, again, later);
  }

  // ---- the gap between sub-ledger and control account ----

  function Gone(js: seq<Journal>): Row -> int {
    (d: Row) => if Reversed(js, d) then 0 else d.balance
  }

  function GoneAmount(js: seq<Journal>): Row -> int {
    (d: Row) => if Reversed(js, d) then 0 else d.amount
  }

  lemma RemoveRow(rows: seq<Row>, d: Row)
    requires UniqueRows(rows) && d in rows
    ensures Sum(Filter(rows, NotRow(d.id)), Balance()) == Sum(rows, Balance()) - d.balance
  {
    var i :| 0 <= i < |rows| && rows[i] == d;
    var rest, it := (r: Row) => if r.id != d.id then r.balance else 0, (r: Row) => if r.id == d.id then r.balance else 0;
    FilterSum(rows, NotRow(d.id), Balance(), rest);
    SumPlus(rows, Balance(), rest, it);
    SumOnly(rows, i, it);
  }

  lemma {:induction false} HealAllBalance(s: State, js: seq<Journal>, dupes: seq<Row>, now: int)
    requires UniqueRows(s.ar) && UniqueRows(dupes) && forall d :: d in dupes ==> d in s.ar
    ensures Sum(HealAll(s, js, dupes, now).ar, Balance()) == Sum(s.ar, Balance()) - Sum(dupes, Gone(js))
    decreases |dupes|
  {
    if dupes != [] {
      var d := dupes[0];
      assert d in dupes;
      if !Reversed(js, d) {
        RemoveRow(s.ar, d);
        FilterUniqueRows(s.ar, NotRow(d.id));
        FilterIn(s.ar, NotRow(d.id));
        forall k | 0 <= k < |dupes[1..]|
          ensures dupes[1..][k].id != d.id
        {
        }
      }
      HealAllBalance(HealOne(s, js, d, now), js, dupes[1..], now);
    }
  }

  /** The whole effect on the difference: the deleted balances go, and the reversed 1100 lines come back. */
  lemma HealMovesGap(s: State, dupes: seq<Row>, now: int, recv: Account)
    requires UniqueRows(s.ar) && Finds(s.ar, dupes) && AccountByCode(s.chart, RECEIVABLE) == Some(recv)
    ensures var s' := Heal(s, dupes, now);
            && NetOn(s', RECEIVABLE) == NetOn(s, RECEIVABLE) - Sum(dupes, Off(s.journals, JOn(recv.id)))
            && ArGap(s') == ArGap(s) - Sum(dupes, Gone(s.journals)) + Sum(dupes, Off(s.journals, JOn(recv.id)))
  {
    NetTakesBack(recv.id, now);
    HealAllSum(s, s.journals, dupes, now, JOn(recv.id), JOn(recv.id));
    HealAllBalance(s, s.journals, dupes, now);
  }

  /** The payment journals of a row credit 1100 by what the row says was paid. */
  predicate PaidIsBooked(js: seq<Journal>, recv: nat, d: Row) {
    d.paid + d.balance == d.amount && Sum(PaymentJournals(js, d.id), JOn(recv)) == -d.paid
  }

  /** Then healing closes exactly the duplicates' share: the amounts of the rows it deletes. */
  lemma HealClosesTheGap(s: State, dupes: seq<Row>, now: int, recv: Account)
    requires UniqueRows(s.ar) && Finds(s.ar, dupes) && AccountByCode(s.chart, RECEIVABLE) == Some(recv)
    requires forall d :: d in dupes && !Reversed(s.journals, d) ==> PaidIsBooked(s.journals, recv.id, d)
    ensures ArGap(Heal(s, dupes, now)) == ArGap(s) - Sum(dupes, GoneAmount(s.journals))
  {
    HealMovesGap(s, dupes, now, recv);
    var off := Off(s.journals, JOn(recv.id));
    SumPlus(dupes, Gone(s.journals), GoneAmount(s.journals), off);
  }

  lemma {:induction false} CodeIsAccount(chart: seq<Account>, ls: seq<Line>, recv: Account)
    requires ChartOk(chart) && recv in chart && recv.code == RECEIVABLE && forall l :: l in ls ==> Named(chart, l)
    ensures Sum(ls, OnReceivableCode()) == Sum(ls, OnAccount(recv.id))
  {
    forall l | l in ls
      ensures OnReceivableCode()(l) == OnAccount(recv.id)(l)
    {
      var a :| a in chart && a.id == l.account && a.code == l.code;
      SameIdSameAccount(chart, a, recv);
    }
    SumSame(ls, OnReceivableCode(), OnAccount(recv.id));
  }

  /** The figure of the dry run is exactly minus the change the apply run makes to account 1100. */
  lemma DryRunTellsTheChange(s: State, dupes: seq<Row>, now: int, recv: Account)
    requires ChartOk(s.chart) && LinesNamed(s.chart, s.journals)
    requires UniqueRows(s.ar) && Finds(s.ar, dupes) && AccountByCode(s.chart, RECEIVABLE) == Some(recv)
    ensures NetOn(Heal(s, dupes, now), RECEIVABLE) - NetOn(s, RECEIVABLE) == -Sum(dupes, Off(s.journals, ReceivableByCode()))
  {
    HealMovesGap(s, dupes, now, recv);
    forall d | d in dupes
      ensures Off(s.journals, ReceivableByCode())(d) == Off(s.journals, JOn(recv.id))(d)
    {
      var ps := PaymentJournals(s.journals, d.id);
      FilterIn(s.journals, PaysOff(d.id));
      forall p | p in ps
        ensures ReceivableByCode()(p) == JOn(recv.id)(p)
      {
        CodeIsAccount(s.chart, p.lines, recv);
      }
      SumSame(ps, ReceivableByCode(), JOn(recv.id));
    }
    SumSame(dupes, Off(s.journals, ReceivableByCode()), Off(s.journals, JOn(recv.id)));
  }
}
