/**
 Concurrent payments on receivables and payables. Each request is a
 transaction that takes the row lock, re-reads the row, checks, updates,
 inserts its ledger row, posts its journal and commits; any of them may stop
 at any point. Every interleaving leaves what the same requests leave when
 they run one at a time in the order the locks were granted.
 */
module Payments {
  import opened Results
  import opened Ledger
  import opened Posting
  import opened SubLedger

  datatype Doc = Receivable(id: nat) | Payable(id: nat)

  /** One request, with the identifiers its transaction draws. */
  datatype Req = Req(doc: Doc, amount: real, payId: nat, journalId: nat, now: int)

  /** The committed tables. Ledger rows and journals are unordered. */
  datatype Db = Db(
    chart: seq<Account>, ar: map<nat, Row>, ap: map<nat, Row>,
    arPays: multiset<Payment>, apPays: multiset<Payment>, journals: multiset<Journal>)

  /** What a payment writes. */
  datatype Effect = Effect(row: Row, payment: Payment, journal: Journal)

  function Look(db: Db, doc: Doc): Option<Row> {
    match doc
    case Receivable(id) => if id in db.ar then Some(db.ar[id]) else None
    case Payable(id) => if id in db.ap then Some(db.ap[id]) else None
  }

  function Put(db: Db, doc: Doc, e: Effect): Db {
    match doc
    case Receivable(id) =>
      db.(ar := db.ar[id := e.row], arPays := db.arPays + multiset{e.payment}, journals := db.journals + multiset{e.journal})
    case Payable(id) =>
      db.(ap := db.ap[id := e.row], apPays := db.apPays + multiset{e.payment}, journals := db.journals + multiset{e.journal})
  }

  function PaymentJournal(chart: seq<Account>, q: Req, number: string): Option<Journal> {
    var codes := if q.doc.Receivable? then (CASH, RECEIVABLE) else (PAYABLE, CASH);
    match (AccountByCode(chart, codes.0), AccountByCode(chart, codes.1))
    case (Some(d), Some(c)) =>
      var desc := (if q.doc.Receivable? then "AR payment: " else "AP payment: ") + number;
      var h := Header(desc, Some(q.doc.id), if q.doc.Receivable? then ArPaymentRef else ApPaymentRef, None);
      Some(NewJournal(q.journalId, h, Pair(d, c, Round(q.amount), desc, desc, q.now), q.now))
    case _ => None
  }

  // ---- one at a time ----

  /** The answer to a request that has the tables to itself. */
  function Outcome(db: Db, q: Req): Result<Effect> {
    match Look(db, q.doc)
    case None => Err(RowNotFound)
    case Some(r) =>
      match PayRow(r, q.amount)
      case Err(e) => Err(e)
      case Ok(r') =>
        match PaymentJournal(db.chart, q, r.number)
        case None => Err(AccountMissing)
        case Some(j) => Ok(Effect(r', Payment(q.payId, q.doc.id, Round(q.amount)), j))
  }

  function Alone(db: Db, q: Req): Db {
    match Outcome(db, q)
    case Err(_) => db
    case Ok(e) => Put(db, q.doc, e)
  }

  // ---- step by step ----

  datatype Phase =
    | Waiting
    | Locked
    | Seen(row: Row)
    | Passed(row: Row)
    | Updated(row: Row, paid: Row)
    | Inserted(row: Row, paid: Row, payment: Payment)
    | Journaled(effect: Effect)
    | Done(result: Result<Effect>)
    | Crashed

  /** The next step of a transaction that holds its row's lock. */
  function Advance(db: Db, q: Req, p: Phase): Phase {
    match p
    case Locked => (match Look(db, q.doc) case None => Done(Err(RowNotFound)) case Some(r) => Seen(r))
    case Seen(r) =>
      if q.amount <= 0.0 then Done(Err(NotPositive))
      else if q.amount > r.balance as real then Done(Err(ExceedsBalance))
      else Passed(r)
    case Passed(r) =>
      Updated(r, r.(paid := Round(r.paid as real + q.amount),
                    balance := Round(r.balance as real - q.amount),
                    status := if r.balance as real - q.amount <= 0.0 then Paid else Partial))
    case Updated(r, r') =>
      if Round(q.amount) <= 0 then Done(Err(NotPositive))
      else Inserted(r, r', Payment(q.payId, q.doc.id, Round(q.amount)))
    case Inserted(r, r', pay) =>
      (match PaymentJournal(db.chart, q, r.number)
       case None => Done(Err(AccountMissing))
       case Some(j) => Journaled(Effect(r', pay, j)))
    case Journaled(e) => Done(Ok(e))
    case _ => p
  }

  predicate InFlight(p: Phase) {
    !p.Waiting? && !p.Done? && !p.Crashed?
  }

  /** `order` lists the transactions in the order their locking read returned. */
  datatype Sys = Sys(db: Db, phases: seq<Phase>, locks: map<Doc, nat>, order: seq<nat>)

  datatype Act = Go(tx: nat) | Kill(tx: nat)

  function Release(locks: map<Doc, nat>, doc: Doc): map<Doc, nat> {
    locks - {doc}
  }

  function Grant(s: Sys, q: Req, t: nat): Sys
    requires t < |s.phases|
  {
    if q.doc in s.locks then s
    else if Look(s.db, q.doc).None? then
      s.(phases := s.phases[t := Done(Err(RowNotFound))], order := s.order + [t])
    else
      s.(phases := s.phases[t := Locked], locks := s.locks[q.doc := t], order := s.order + [t])
  }

  function Proceed(s: Sys, q: Req, t: nat): Sys
    requires t < |s.phases|
  {
    var p := Advance(s.db, q, s.phases[t]);
    var s' := s.(phases := s.phases[t := p]);
    if !p.Done? then s'
    else if p.result.Err? then s'.(locks := Release(s.locks, q.doc))
    else s'.(locks := Release(s.locks, q.doc), db := Put(s.db, q.doc, p.result.value))
  }

  function Act1(qs: seq<Req>, s: Sys, a: Act): Sys
    requires |s.phases| == |qs|
  {
    if a.tx >= |qs| then s
    else
      var p := s.phases[a.tx];
      if p.Done? || p.Crashed? then s
      else if a.Kill? then
        s.(phases := s.phases[a.tx := Crashed],
           locks := if InFlight(p) then Release(s.locks, qs[a.tx].doc) else s.locks)
      else if p.Waiting? then Grant(s, qs[a.tx], a.tx)
      else Proceed(s, qs[a.tx], a.tx)
  }

  function Acts(qs: seq<Req>, s: Sys, acts: seq<Act>): (s': Sys)
    requires |s.phases| == |qs|
    ensures |s'.phases| == |qs|
    decreases |acts|
  {
    if acts == [] then s else Acts(qs, Act1(qs, s, acts[0]), acts[1..])
  }

  function Idle(db: Db, n: nat): Sys {
    Sys(db, seq(n, _ => Waiting), map[], [])
  }

  // ---- the serial run a state stands for ----

  predicate InRange(order: seq<nat>, n: nat) {
    forall i :: 0 <= i < |order| ==> order[i] < n
  }

  /** The finished transactions among these, one at a time in this order. */
  function Serial(db: Db, qs: seq<Req>, order: seq<nat>, phases: seq<Phase>): Db
    requires |phases| == |qs| && InRange(order, |qs|)
  {
    if order == [] then db
    else
      var n := |order| - 1;
      var before := Serial(db, qs, order[..n], phases);
      if phases[order[n]].Done? then Alone(before, qs[order[n]]) else before
  }

  ghost predicate Distinct(order: seq<nat>) {
    forall i, j :: 0 <= i < j < |order| ==> order[i] != order[j]
  }

  ghost predicate Orderly(s: Sys, qs: seq<Req>) {
    && |s.phases| == |qs|
    && Distinct(s.order)
    && InRange(s.order, |qs|)
    && (forall i :: 0 <= i < |s.order| ==> !s.phases[s.order[i]].Waiting?)
    && (forall t :: 0 <= t < |qs| && (s.phases[t].Done? || InFlight(s.phases[t])) ==> t in s.order)
  }

  /** Whatever a transaction in flight knows is what it would find now, and nobody later wants its row. */
  ghost predicate Knows(db: Db, q: Req, p: Phase) {
    match Look(db, q.doc)
    case None => false
    case Some(r) =>
      match p
      case Seen(w) => w == r
      case Passed(w) => w == r && 0.0 < q.amount <= r.balance as real
      case Updated(w, r') => w == r && 0.0 < q.amount <= r.balance as real && r' == Advance(db, q, Passed(r)).paid
      case Inserted(w, r', pay) =>
        w == r && PayRow(r, q.amount) == Ok(r') && pay == Payment(q.payId, q.doc.id, Round(q.amount))
      case Journaled(e) => Outcome(db, q) == Ok(e)
      case _ => true
  }

  ghost predicate Locking(s: Sys, qs: seq<Req>)
    requires |s.phases| == |qs|
  {
    && (forall t :: 0 <= t < |qs| && InFlight(s.phases[t]) ==> qs[t].doc in s.locks && s.locks[qs[t].doc] == t)
    && (forall d :: d in s.locks ==> s.locks[d] < |qs| && InFlight(s.phases[s.locks[d]]) && qs[s.locks[d]].doc == d)
    && (forall t :: 0 <= t < |qs| && InFlight(s.phases[t]) ==> Knows(s.db, qs[t], s.phases[t]))
  }

  ghost predicate LastOnRow(s: Sys, qs: seq<Req>)
    requires Orderly(s, qs)
  {
    forall i, k :: 0 <= i < k < |s.order| && InFlight(s.phases[s.order[i]]) ==> qs[s.order[k]].doc != qs[s.order[i]].doc
  }

  ghost predicate Answered(db: Db, s: Sys, qs: seq<Req>)
    requires Orderly(s, qs)
  {
    forall k :: 0 <= k < |s.order| && s.phases[s.order[k]].Done? ==>
      s.phases[s.order[k]].result == Outcome(Serial(db, qs, s.order[..k], s.phases), qs[s.order[k]])
  }

  ghost predicate Serialised(db: Db, s: Sys, qs: seq<Req>) {
    && Orderly(s, qs)
    && Locking(s, qs)
    && LastOnRow(s, qs)
    && s.db == Serial(db, qs, s.order, s.phases)
    && Answered(db, s, qs)
  }

  // ---- requests on different rows commute ----

  lemma PutLook(db: Db, d: Doc, e: Effect, d': Doc)
    ensures Look(Put(db, d, e), d') == if d' == d then Some(e.row) else Look(db, d')
    ensures Put(db, d, e).chart == db.chart
  {
  }

  lemma OtherRowSame(db: Db, x: Req, y: Req)
    requires x.doc != y.doc
    ensures Outcome(Alone(db, x), y) == Outcome(db, y)
  {
    if Outcome(db, x).Ok? {
      PutLook(db, x.doc, Outcome(db, x).value, y.doc);
    }
  }

  lemma Commute(db: Db, x: Req, y: Req)
    requires x.doc != y.doc
    ensures Alone(Alone(db, x), y) == Alone(Alone(db, y), x)
  {
    OtherRowSame(db, x, y);
    OtherRowSame(db, y, x);
    if Outcome(db, x).Ok? && Outcome(db, y).Ok? {
      PutsCommute(db, x.doc, Outcome(db, x).value, y.doc, Outcome(db, y).value);
    }
  }

  lemma MapSwap<K, V>(m: map<K, V>, i: K, v: V, k: K, w: V)
    requires i != k
    ensures m[i := v][k := w] == m[k := w][i := v]
  {
  }

  lemma BagSwap<T>(m: multiset<T>, x: T, y: T)
    ensures m + multiset{x} + multiset{y} == m + multiset{y} + multiset{x}
  {
  }

  lemma PutsCommute(db: Db, d: Doc, e: Effect, d': Doc, e': Effect)
    requires d != d'
    ensures Put(Put(db, d, e), d', e') == Put(Put(db, d', e'), d, e)
  {
    BagSwap(db.journals, e.journal, e'.journal);
    match (d, d')
    case (Receivable(i), Receivable(k)) =>
      MapSwap(db.ar, i, e.row, k, e'.row);
      BagSwap(db.arPays, e.payment, e'.payment);
    case (Payable(i), Payable(k)) =>
      MapSwap(db.ap, i, e.row, k, e'.row);
      BagSwap(db.apPays, e.payment, e'.payment);
    case _ =>
  }

  lemma {:induction false} PrefixSame(db: Db, qs: seq<Req>, order: seq<nat>, phases: seq<Phase>, phases': seq<Phase>)
    requires |phases| == |qs| == |phases'| && InRange(order, |qs|)
    requires forall i :: 0 <= i < |order| ==> phases'[order[i]].Done? == phases[order[i]].Done?
    ensures Serial(db, qs, order, phases') == Serial(db, qs, order, phases)
  {
    if order != [] {
      PrefixSame(db, qs, order[..|order| - 1], phases, phases');
    }
  }

  /** A row wanted by nobody in this stretch is what it was before the stretch. */
  lemma {:induction false} RowUntouched(db: Db, qs: seq<Req>, order: seq<nat>, phases: seq<Phase>, i: nat, doc: Doc)
    requires |phases| == |qs| && i <= |order| && InRange(order, |qs|)
    requires forall k :: i <= k < |order| && phases[order[k]].Done? ==> qs[order[k]].doc != doc
    ensures Look(Serial(db, qs, order, phases), doc) == Look(Serial(db, qs, order[..i], phases), doc)
    ensures Serial(db, qs, order, phases).chart == Serial(db, qs, order[..i], phases).chart
  {
    var n := |order| - 1;
    if i < |order| {
      assert order[..n][..i] == order[..i];
      RowUntouched(db, qs, order[..n], phases, i, doc);
      var before := Serial(db, qs, order[..n], phases);
      if phases[order[n]].Done? && Outcome(before, qs[order[n]]).Ok? {
        PutLook(before, qs[order[n]].doc, Outcome(before, qs[order[n]]).value, doc);
      }
    } else {
      assert order[..i] == order;
    }
  }

  /** Finishing a transaction in its place is the same as running it last, when nobody later wants its row. */
  lemma {:induction false} FinishInPlace(db: Db, qs: seq<Req>, order: seq<nat>, phases: seq<Phase>, i: nat, p: Phase)
    requires |phases| == |qs| && Distinct(order) && i < |order| && InRange(order, |qs|)
    requires !phases[order[i]].Done? && p.Done?
    requires forall k :: i < k < |order| ==> qs[order[k]].doc != qs[order[i]].doc
    ensures Serial(db, qs, order, phases[order[i] := p]) == Alone(Serial(db, qs, order, phases), qs[order[i]])
  {
    var n := |order| - 1;
    var phases' := phases[order[i] := p];
    if i == n {
      assert order[i] !in order[..n];
      PrefixSame(db, qs, order[..n], phases, phases');
    } else {
      FinishInPlace(db, qs, order[..n], phases, i, p);
      Commute(Serial(db, qs, order[..n], phases), qs[order[n]], qs[order[i]]);
    }
  }

  // ---- every step keeps the state serialised ----

  lemma SameLookSameAnswer(a: Db, b: Db, q: Req, p: Phase)
    requires Look(a, q.doc) == Look(b, q.doc) && a.chart == b.chart
    ensures Outcome(a, q) == Outcome(b, q)
    ensures Knows(a, q, p) <==> Knows(b, q, p)
  {
  }

  /** A step either learns what is there or answers as it would alone. */
  lemma StepIsHonest(db: Db, q: Req, p: Phase)
    requires InFlight(p) && Knows(db, q, p)
    ensures var p' := Advance(db, q, p);
            if p'.Done? then p'.result == Outcome(db, q) else InFlight(p') && Knows(db, q, p')
  {
  }

  /** A step that finishes nobody leaves the serial run and all answers as they were. */
  lemma NobodyFinished(db: Db, s: Sys, qs: seq<Req>, phases': seq<Phase>)
    requires Orderly(s, qs) && Answered(db, s, qs) && |phases'| == |qs|
    requires forall t :: 0 <= t < |qs| ==> phases'[t].Done? == s.phases[t].Done?
    requires forall t :: 0 <= t < |qs| && s.phases[t].Done? ==> phases'[t] == s.phases[t]
    ensures Serial(db, qs, s.order, phases') == Serial(db, qs, s.order, s.phases)
    ensures forall k :: 0 <= k < |s.order| && phases'[s.order[k]].Done? ==>
      phases'[s.order[k]].result == Outcome(Serial(db, qs, s.order[..k], phases'), qs[s.order[k]])
  {
    PrefixSame(db, qs, s.order, s.phases, phases');
    forall k | 0 <= k < |s.order| && phases'[s.order[k]].Done?
      ensures phases'[s.order[k]].result == Outcome(Serial(db, qs, s.order[..k], phases'), qs[s.order[k]])
    {
      PrefixSame(db, qs, s.order[..k], s.phases, phases');
    }
  }

  lemma KillKeeps(db: Db, s: Sys, qs: seq<Req>, t: nat)
    requires Serialised(db, s, qs) && t < |qs| && !s.phases[t].Done? && !s.phases[t].Crashed?
    ensures Serialised(db, Act1(qs, s, Kill(t)), qs)
  {
    var s' := Act1(qs, s, Kill(t));
    NobodyFinished(db, s, qs, s'.phases);
    assert forall u :: 0 <= u < |qs| && InFlight(s'.phases[u]) ==> u != t && InFlight(s.phases[u]);
  }

  lemma StayKeeps(db: Db, s: Sys, qs: seq<Req>, t: nat)
    requires Serialised(db, s, qs) && t < |qs| && InFlight(s.phases[t])
    requires !Advance(s.db, qs[t], s.phases[t]).Done?
    ensures Serialised(db, Proceed(s, qs[t], t), qs)
  {
    StepIsHonest(s.db, qs[t], s.phases[t]);
    SamePlaces(db, s, Proceed(s, qs[t], t), qs, t);
  }

  /** One transaction moves on in flight, and everything else is where it was. */
  lemma SamePlaces(db: Db, s: Sys, s': Sys, qs: seq<Req>, t: nat)
    requires Serialised(db, s, qs) && t < |qs| && InFlight(s.phases[t])
    requires |s'.phases| == |s.phases| && s' == s.(phases := s.phases[t := s'.phases[t]])
    requires InFlight(s'.phases[t]) && Knows(s.db, qs[t], s'.phases[t])
    ensures Serialised(db, s', qs)
  {
    NobodyFinished(db, s, qs, s'.phases);
    assert forall u :: 0 <= u < |qs| ==> InFlight(s'.phases[u]) == InFlight(s.phases[u]);
  }

  /** The order grows at the end: earlier answers stand. */
  lemma AnswersStand(db: Db, s: Sys, s': Sys, qs: seq<Req>, t: nat)
    requires Orderly(s, qs) && Answered(db, s, qs) && t < |qs| && t !in s.order && !s.phases[t].Done?
    requires |s'.phases| == |qs| && s'.phases == s.phases[t := s'.phases[t]] && s'.order == s.order + [t]
    ensures Serial(db, qs, s.order, s'.phases) == Serial(db, qs, s.order, s.phases)
    ensures forall k :: 0 <= k < |s.order| && s'.phases[s.order[k]].Done? ==>
      s'.phases[s.order[k]].result == Outcome(Serial(db, qs, s'.order[..k], s'.phases), qs[s.order[k]])
  {
    PrefixSame(db, qs, s.order, s.phases, s'.phases);
    forall k | 0 <= k < |s.order| && s'.phases[s.order[k]].Done?
      ensures s'.phases[s.order[k]].result == Outcome(Serial(db, qs, s'.order[..k], s'.phases), qs[s.order[k]])
    {
      assert s'.order[..k] == s.order[..k];
      PrefixSame(db, qs, s.order[..k], s.phases, s'.phases);
    }
  }

  lemma GrantOrder(db: Db, s: Sys, qs: seq<Req>, t: nat)
    requires Serialised(db, s, qs) && t < |qs| && s.phases[t].Waiting? && qs[t].doc !in s.locks
    ensures Orderly(Grant(s, qs[t], t), qs)
  {
    var s' := Grant(s, qs[t], t);
    assert forall i :: 0 <= i < |s.order| ==> s.order[i] != t;
    forall u | 0 <= u < |qs| && (s'.phases[u].Done? || InFlight(s'.phases[u]))
      ensures u in s'.order
    {
      assert u == t || u in s.order;
    }
  }

  /** Nobody in flight wants the row just granted: it was not locked. */
  lemma GrantLast(db: Db, s: Sys, qs: seq<Req>, t: nat)
    requires Serialised(db, s, qs) && t < |qs| && s.phases[t].Waiting? && qs[t].doc !in s.locks
    requires Orderly(Grant(s, qs[t], t), qs)
    ensures LastOnRow(Grant(s, qs[t], t), qs)
  {
    var s' := Grant(s, qs[t], t);
    forall i, k | 0 <= i < k < |s'.order| && InFlight(s'.phases[s'.order[i]])
      ensures qs[s'.order[k]].doc != qs[s'.order[i]].doc
    {
      assert qs[s.order[i]].doc in s.locks;
    }
  }

  lemma GrantLocks(db: Db, s: Sys, qs: seq<Req>, t: nat)
    requires Serialised(db, s, qs) && t < |qs| && s.phases[t].Waiting? && qs[t].doc !in s.locks
    ensures Locking(Grant(s, qs[t], t), qs)
  {
    var s' := Grant(s, qs[t], t);
    assert forall u :: 0 <= u < |qs| && u != t ==> s'.phases[u] == s.phases[u];
  }

  lemma GrantTables(db: Db, s: Sys, qs: seq<Req>, t: nat)
    requires Serialised(db, s, qs) && t < |qs| && s.phases[t].Waiting? && qs[t].doc !in s.locks
    requires Orderly(Grant(s, qs[t], t), qs)
    ensures var s' := Grant(s, qs[t], t); s'.db == Serial(db, qs, s'.order, s'.phases) && Answered(db, s', qs)
  {
    assert t !in s.order;
    LastAnswer(db, s, Grant(s, qs[t], t), qs, t);
  }

  /** The newcomer is either unanswered yet or was told there is no such row, as it would be last in line. */
  lemma LastAnswer(db: Db, s: Sys, s': Sys, qs: seq<Req>, t: nat)
    requires Orderly(s, qs) && Answered(db, s, qs) && s.db == Serial(db, qs, s.order, s.phases)
    requires t < |qs| && t !in s.order && !s.phases[t].Done? && Orderly(s', qs)
    requires s'.phases == s.phases[t := s'.phases[t]] && s'.order == s.order + [t] && s'.db == s.db
    requires s'.phases[t].Done? ==> s'.phases[t] == Done(Err(RowNotFound)) && Look(s.db, qs[t].doc).None?
    ensures s'.db == Serial(db, qs, s'.order, s'.phases) && Answered(db, s', qs)
  {
    var n := |s.order|;
    AnswersStand(db, s, s', qs, t);
    assert s'.order[..n] == s.order && s'.order[n] == t;
  }

  lemma GrantKeeps(db: Db, s: Sys, qs: seq<Req>, t: nat)
    requires Serialised(db, s, qs) && t < |qs| && s.phases[t].Waiting?
    ensures Serialised(db, Grant(s, qs[t], t), qs)
  {
    if qs[t].doc !in s.locks {
      GrantOrder(db, s, qs, t);
      GrantLast(db, s, qs, t);
      GrantLocks(db, s, qs, t);
      GrantTables(db, s, qs, t);
    }
  }

  lemma EarlierAnswer(db: Db, s: Sys, qs: seq<Req>, i: nat, p: Phase, k: nat)
    requires Serialised(db, s, qs) && k < i < |s.order|
    ensures Serial(db, qs, s.order[..k], s.phases[s.order[i] := p]) == Serial(db, qs, s.order[..k], s.phases)
  {
    PrefixSame(db, qs, s.order[..k], s.phases, s.phases[s.order[i] := p]);
  }

  /** The one that finishes is answered as if the later ones, who want other rows, had not run. */
  lemma OwnAnswer(db: Db, s: Sys, qs: seq<Req>, i: nat, p: Phase)
    requires Serialised(db, s, qs) && i < |s.order| && InFlight(s.phases[s.order[i]])
    ensures Outcome(Serial(db, qs, s.order[..i], s.phases[s.order[i] := p]), qs[s.order[i]]) == Outcome(s.db, qs[s.order[i]])
  {
    PrefixSame(db, qs, s.order[..i], s.phases, s.phases[s.order[i] := p]);
    RowAsFound(db, s, qs, i);
    SameLookSameAnswer(s.db, Serial(db, qs, s.order[..i], s.phases), qs[s.order[i]], p);
  }

  lemma RowAsFound(db: Db, s: Sys, qs: seq<Req>, i: nat)
    requires Serialised(db, s, qs) && i < |s.order| && InFlight(s.phases[s.order[i]])
    ensures var before := Serial(db, qs, s.order[..i], s.phases);
            Look(s.db, qs[s.order[i]].doc) == Look(before, qs[s.order[i]].doc) && s.db.chart == before.chart
  {
    var doc := qs[s.order[i]].doc;
    forall k | i <= k < |s.order| && s.phases[s.order[k]].Done?
      ensures qs[s.order[k]].doc != doc
    {
      assert k != i;
    }
    RowUntouched(db, qs, s.order, s.phases, i, doc);
  }

  lemma LaterAnswer(db: Db, s: Sys, qs: seq<Req>, i: nat, p: Phase, k: nat)
    requires Serialised(db, s, qs) && i < k < |s.order| && InFlight(s.phases[s.order[i]]) && p.Done?
    ensures Outcome(Serial(db, qs, s.order[..k], s.phases[s.order[i] := p]), qs[s.order[k]])
         == Outcome(Serial(db, qs, s.order[..k], s.phases), qs[s.order[k]])
  {
    FinishInPlace(db, qs, s.order[..k], s.phases, i, p);
    OtherRowSame(Serial(db, qs, s.order[..k], s.phases), qs[s.order[i]], qs[s.order[k]]);
  }

  lemma FinishedAnswer(db: Db, s: Sys, qs: seq<Req>, i: nat, p: Phase, k: nat)
    requires Serialised(db, s, qs) && i < |s.order| && InFlight(s.phases[s.order[i]])
    requires p == Done(Outcome(s.db, qs[s.order[i]])) && k < |s.order|
    ensures var phases' := s.phases[s.order[i] := p];
      phases'[s.order[k]].Done? ==> phases'[s.order[k]].result == Outcome(Serial(db, qs, s.order[..k], phases'), qs[s.order[k]])
  {
    if k < i {
      EarlierAnswer(db, s, qs, i, p, k);
    } else if k == i {
      OwnAnswer(db, s, qs, i, p);
    } else {
      LaterAnswer(db, s, qs, i, p, k);
    }
  }

  lemma FinishedAnswers(db: Db, s: Sys, qs: seq<Req>, i: nat, p: Phase)
    requires Serialised(db, s, qs) && i < |s.order| && InFlight(s.phases[s.order[i]])
    requires p == Done(Outcome(s.db, qs[s.order[i]]))
    ensures var phases' := s.phases[s.order[i] := p];
      forall k :: 0 <= k < |s.order| && phases'[s.order[k]].Done? ==>
        phases'[s.order[k]].result == Outcome(Serial(db, qs, s.order[..k], phases'), qs[s.order[k]])
  {
    forall k | 0 <= k < |s.order| && s.phases[s.order[i] := p][s.order[k]].Done?
      ensures s.phases[s.order[i] := p][s.order[k]].result
           == Outcome(Serial(db, qs, s.order[..k], s.phases[s.order[i] := p]), qs[s.order[k]])
    {
      FinishedAnswer(db, s, qs, i, p, k);
    }
  }

  lemma FinishedLocks(db: Db, s: Sys, qs: seq<Req>, t: nat)
    requires Serialised(db, s, qs) && t < |qs| && InFlight(s.phases[t])
    requires Advance(s.db, qs[t], s.phases[t]) == Done(Outcome(s.db, qs[t]))
    ensures Locking(Proceed(s, qs[t], t), qs)
  {
    var s' := Proceed(s, qs[t], t);
    forall u | 0 <= u < |qs| && InFlight(s'.phases[u])
      ensures Knows(s'.db, qs[u], s'.phases[u])
    {
      assert qs[u].doc != qs[t].doc;
      if Outcome(s.db, qs[t]).Ok? {
        PutLook(s.db, qs[t].doc, Outcome(s.db, qs[t]).value, qs[u].doc);
        SameLookSameAnswer(s.db, s'.db, qs[u], s.phases[u]);
      }
    }
  }

  lemma FinishedOrder(db: Db, s: Sys, qs: seq<Req>, t: nat)
    requires Serialised(db, s, qs) && t < |qs| && InFlight(s.phases[t])
    requires Advance(s.db, qs[t], s.phases[t]).Done?
    ensures Orderly(Proceed(s, qs[t], t), qs) && LastOnRow(Proceed(s, qs[t], t), qs)
  {
  }

  lemma FinishedTables(db: Db, s: Sys, qs: seq<Req>, i: nat)
    requires Serialised(db, s, qs) && i < |s.order| && InFlight(s.phases[s.order[i]])
    requires Advance(s.db, qs[s.order[i]], s.phases[s.order[i]]) == Done(Outcome(s.db, qs[s.order[i]]))
    requires Orderly(Proceed(s, qs[s.order[i]], s.order[i]), qs)
    ensures var s' := Proceed(s, qs[s.order[i]], s.order[i]);
            s'.db == Serial(db, qs, s'.order, s'.phases) && Answered(db, s', qs)
  {
    var p := Done(Outcome(s.db, qs[s.order[i]]));
    FinishInPlace(db, qs, s.order, s.phases, i, p);
    FinishedAnswers(db, s, qs, i, p);
  }

  lemma FinishKeeps(db: Db, s: Sys, qs: seq<Req>, t: nat)
    requires Serialised(db, s, qs) && t < |qs| && InFlight(s.phases[t])
    requires Advance(s.db, qs[t], s.phases[t]).Done?
    ensures Serialised(db, Proceed(s, qs[t], t), qs)
  {
    StepIsHonest(s.db, qs[t], s.phases[t]);
    var i :| 0 <= i < |s.order| && s.order[i] == t;
    FinishedOrder(db, s, qs, t);
    FinishedLocks(db, s, qs, t);
    FinishedTables(db, s, qs, i);
  }

  lemma ActKeeps(db: Db, s: Sys, qs: seq<Req>, a: Act)
    requires Serialised(db, s, qs)
    ensures Serialised(db, Act1(qs, s, a), qs)
  {
    if a.tx < |qs| && !s.phases[a.tx].Done? && !s.phases[a.tx].Crashed? {
      if a.Kill? {
        KillKeeps(db, s, qs, a.tx);
      } else if s.phases[a.tx].Waiting? {
        GrantKeeps(db, s, qs, a.tx);
      } else if Advance(s.db, qs[a.tx], s.phases[a.tx]).Done? {
        FinishKeeps(db, s, qs, a.tx);
      } else {
        StayKeeps(db, s, qs, a.tx);
      }
    }
  }

  lemma {:induction false} ActsKeep(db: Db, s: Sys, qs: seq<Req>, acts: seq<Act>)
    requires Serialised(db, s, qs)
    ensures Serialised(db, Acts(qs, s, acts), qs)
    decreases |acts|
  {
    if acts != [] {
      ActKeeps(db, s, qs, acts[0]);
      ActsKeep(db, Act1(qs, s, acts[0]), qs, acts[1..]);
    }
  }

  // ---- no committed balance is negative ----

  ghost predicate Solvent(db: Db) {
    forall d: Doc :: Look(db, d).Some? ==> Look(db, d).value.paid >= 0 && Look(db, d).value.balance >= 0
  }

  lemma AloneSolvent(db: Db, q: Req)
    requires Solvent(db)
    ensures Solvent(Alone(db, q))
  {
    match Outcome(db, q) {
      case Err(_) =>
      case Ok(e) =>
        PayRowExact(Look(db, q.doc).value, q.amount);
        RoundShift(0, q.amount);
        forall d: Doc | Look(Alone(db, q), d).Some?
          ensures Look(Alone(db, q), d).value.paid >= 0 && Look(Alone(db, q), d).value.balance >= 0
        {
          PutLook(db, q.doc, e, d);
        }
    }
  }

  lemma {:induction false} SerialSolvent(db: Db, qs: seq<Req>, order: seq<nat>, phases: seq<Phase>)
    requires Solvent(db) && |phases| == |qs| && InRange(order, |qs|)
    ensures Solvent(Serial(db, qs, order, phases))
  {
    if order != [] {
      var n := |order| - 1;
      SerialSolvent(db, qs, order[..n], phases);
      AloneSolvent(Serial(db, qs, order[..n], phases), qs[order[n]]);
    }
  }

  /**
   For any number of concurrent payments and any interleaving of their steps
   and crashes: the committed tables are what the finished requests leave when
   run one at a time in lock order, each was answered as it would be there, no
   finished request is missing from the order, and no balance is negative.
   */
  lemma PaymentsSerialise(db: Db, qs: seq<Req>, acts: seq<Act>)
    requires Solvent(db)
    ensures var s := Acts(qs, Idle(db, |qs|), acts);
      && InRange(s.order, |qs|) && Distinct(s.order)
      && (forall t :: 0 <= t < |qs| && s.phases[t].Done? ==> t in s.order)
      && s.db == Serial(db, qs, s.order, s.phases)
      && (forall k :: 0 <= k < |s.order| && s.phases[s.order[k]].Done? ==>
            s.phases[s.order[k]].result == Outcome(Serial(db, qs, s.order[..k], s.phases), qs[s.order[k]]))
      && Solvent(s.db)
  {
    ActsKeep(db, Idle(db, |qs|), qs, acts);
    var s := Acts(qs, Idle(db, |qs|), acts);
    SerialSolvent(db, qs, s.order, s.phases);
  }

  /** Row locks never deadlock: while a request is unfinished, one of them can take a step. */
  lemma NoDeadlock(db: Db, qs: seq<Req>, acts: seq<Act>, t: nat)
    requires t < |qs|
    requires var s := Acts(qs, Idle(db, |qs|), acts); !s.phases[t].Done? && !s.phases[t].Crashed?
    ensures var s := Acts(qs, Idle(db, |qs|), acts); exists u: nat :: u < |qs| && Act1(qs, s, Go(u)) != s
  {
    ActsKeep(db, Idle(db, |qs|), qs, acts);
    var s := Acts(qs, Idle(db, |qs|), acts);
    var u := if s.phases[t].Waiting? && qs[t].doc in s.locks then s.locks[qs[t].doc] else t;
    StepMoves(s, qs, u);
    assert Act1(qs, s, Go(u)) != s;
  }

  lemma StepMoves(s: Sys, qs: seq<Req>, u: nat)
    requires |s.phases| == |qs| && u < |qs| && !s.phases[u].Done? && !s.phases[u].Crashed?
    requires s.phases[u].Waiting? ==> qs[u].doc !in s.locks
    ensures Act1(qs, s, Go(u)).phases[u] != s.phases[u]
  {
  }

  // ---- the serial run is the run of whole requests ----

  function RowMap(rows: seq<Row>): map<nat, Row> {
    if rows == [] then map[] else RowMap(rows[1..])[rows[0].id := rows[0]]
  }

  function Tables(s: State): Db {
    Db(s.chart, RowMap(s.ar), RowMap(s.ap), multiset(s.arPays), multiset(s.apPays), multiset(s.journals))
  }

  lemma {:induction false} RowMapFinds(rows: seq<Row>, id: nat)
    ensures id in RowMap(rows) <==> FindRow(rows, id).Some?
    ensures id in RowMap(rows) ==> RowMap(rows)[id] == rows[FindRow(rows, id).value]
  {
    if rows != [] {
      RowMapFinds(rows[1..], id);
    }
  }

  lemma {:induction false} RowMapUpdate(rows: seq<Row>, i: nat, r: Row)
    requires UniqueRows(rows) && i < |rows| && r.id == rows[i].id
    ensures RowMap(rows[i := r]) == RowMap(rows)[r.id := r]
  {
    if i == 0 {
      assert rows[0 := r][1..] == rows[1..];
    } else {
      assert rows[i := r][1..] == rows[1..][i - 1 := r];
      RowMapUpdate(rows[1..], i - 1, r);
    }
  }

  lemma ReceiptAlone(s: State, id: nat, x: real, now: int)
    requires UniqueRows(s.ar) && PayReceivable(s, id, x, false, now).Ok?
    ensures var q := Req(Receivable(id), x, s.next, s.next + 1, now);
      Outcome(Tables(s), q).Ok? && Tables(PayReceivable(s, id, x, false, now).value) == Alone(Tables(s), q)
  {
    var i, cash, recv, h, desc := ReceiptShape(s, id, x, false, now);
    RowMapFinds(s.ar, id);
    RowMapUpdate(s.ar, i, PayRow(s.ar[i], x).value);
  }

  lemma DisbursementAlone(s: State, id: nat, x: real, now: int)
    requires UniqueRows(s.ap) && PayPayable(s, id, x, now).Ok?
    ensures var q := Req(Payable(id), x, s.next, s.next + 1, now);
      Outcome(Tables(s), q).Ok? && Tables(PayPayable(s, id, x, now).value) == Alone(Tables(s), q)
  {
    var i, pay, cash, h, desc := DisbursementShape(s, id, x, now);
    RowMapFinds(s.ap, id);
    RowMapUpdate(s.ap, i, PayRow(s.ap[i], x).value);
  }

  lemma ReceiptPosts(s: State, id: nat, x: real, now: int)
    requires RecordArPayment(s, id, x).Ok? && AccountByCode(s.chart, CASH).Some? && AccountByCode(s.chart, RECEIVABLE).Some?
    ensures PayReceivable(s, id, x, false, now).Ok?
  {
    var desc := "AR payment: " + s.ar[FindRow(s.ar, id).value].number;
    PostPair(RecordArPayment(s, id, x).value, Header(desc, Some(id), ArPaymentRef, None),
             AccountByCode(s.chart, CASH).value, AccountByCode(s.chart, RECEIVABLE).value, x, desc, desc, now);
  }

  lemma DisbursementPosts(s: State, id: nat, x: real, now: int)
    requires RecordApPayment(s, id, x).Ok? && AccountByCode(s.chart, PAYABLE).Some? && AccountByCode(s.chart, CASH).Some?
    ensures PayPayable(s, id, x, now).Ok?
  {
    var desc := "AP payment: " + s.ap[FindRow(s.ap, id).value].number;
    PostPair(RecordApPayment(s, id, x).value, Header(desc, Some(id), ApPaymentRef, None),
             AccountByCode(s.chart, PAYABLE).value, AccountByCode(s.chart, CASH).value, x, desc, desc, now);
  }

  /** A payment request on the books is the same request alone on their tables: same refusal, same tables after. */
  lemma ReceivableRequestAlone(s: State, id: nat, x: real, now: int)
    requires UniqueRows(s.ar)
    ensures var q := Req(Receivable(id), x, s.next, s.next + 1, now);
      match PayReceivable(s, id, x, false, now)
      case Err(e) => Outcome(Tables(s), q) == Err(e)
      case Ok(s') => Outcome(Tables(s), q).Ok? && Tables(s') == Alone(Tables(s), q)
  {
    if PayReceivable(s, id, x, false, now).Ok? {
      ReceiptAlone(s, id, x, now);
    } else {
      RowMapFinds(s.ar, id);
      if RecordArPayment(s, id, x).Ok? && AccountByCode(s.chart, CASH).Some? && AccountByCode(s.chart, RECEIVABLE).Some? {
        ReceiptPosts(s, id, x, now);
      }
    }
  }

  lemma PayableRequestAlone(s: State, id: nat, x: real, now: int)
    requires UniqueRows(s.ap)
    ensures var q := Req(Payable(id), x, s.next, s.next + 1, now);
      match PayPayable(s, id, x, now)
      case Err(e) => Outcome(Tables(s), q) == Err(e)
      case Ok(s') => Outcome(Tables(s), q).Ok? && Tables(s') == Alone(Tables(s), q)
  {
    if PayPayable(s, id, x, now).Ok? {
      DisbursementAlone(s, id, x, now);
    } else {
      RowMapFinds(s.ap, id);
      if RecordApPayment(s, id, x).Ok? && AccountByCode(s.chart, PAYABLE).Some? && AccountByCode(s.chart, CASH).Some? {
        DisbursementPosts(s, id, x, now);
      }
    }
  }
}
