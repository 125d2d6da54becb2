/**
 fn_post_journal: the one gate every database-side posting goes through. Its
 amounts are unrounded NUMERIC values (reals, in kobo); what is stored is
 Numeric(15,2), that is, whole kobo rounded half away from zero.
 */
module Posting {
  import opened Results
  import opened Sums
  import opened Ledger

  datatype Entry = Entry(account: Option<nat>, code: string, debit: Option<real>, credit: Option<real>, desc: string)

  datatype Header = Header(desc: string, ref: Option<nat>, kind: RefKind, store: Option<nat>)

  /** 0.01 naira. */
  const TOLERANCE := 1.0

  function Abs(x: real): real {
    if x < 0.0 then -x else x
  }

  /** a is within e of b. */
  predicate Near(a: real, b: real, e: real) {
    -e <= a - b <= e
  }

  function Amount(x: Option<real>): real {
    match x case None => 0.0 case Some(v) => v
  }

  function Round(x: real): (k: int)
    ensures -0.5 <= k as real - x <= 0.5
  {
    if x >= 0.0 then (x + 0.5).Floor else -((-x + 0.5).Floor)
  }

  lemma RoundWhole(n: int)
    ensures Round(n as real) == n
  {
    var k := Round(n as real);
    assert -0.5 <= (k - n) as real <= 0.5;
  }

  /** To the nearest kobo, half a kobo away from zero. */
  lemma RoundsHalfAway(x: real, n: int)
    ensures x >= 0.0 ==> (Round(x) == n <==> n as real - 0.5 <= x < n as real + 0.5)
    ensures Round(-x) == -Round(x)
  {
  }

  function Debited(): Entry -> real {
    (e: Entry) => Amount(e.debit)
  }

  function Credited(): Entry -> real {
    (e: Entry) => Amount(e.credit)
  }

  function ToLine(now: int): Entry -> Line {
    (e: Entry) =>
      Line(match e.account case Some(a) => a case None => 0, e.code,
           Round(Amount(e.debit)), Round(Amount(e.credit)), e.desc, true, Some(now))
  }

  function NewJournal(id: nat, h: Header, lines: seq<Line>, at: int): Journal {
    Journal(id, h.desc, h.ref, h.kind, true, Some(at), h.store, lines)
  }

  function AddJournal(s: State, h: Header, lines: seq<Line>, at: int): State {
    s.(journals := s.journals + [NewJournal(s.next, h, lines, at)], next := s.next + 1)
  }

  function PostJournal(s: State, h: Header, es: seq<Entry>, now: int): Result<State> {
    if Abs(RSum(es, Debited()) - RSum(es, Credited())) > TOLERANCE then Err(Unbalanced)
    else if exists e :: e in es && e.account.None? then Err(EntryWithoutAccount)
    else Ok(AddJournal(s, h, Map(es, ToLine(now)), now))
  }

  // ---- the two-line postings of the receivable, payable, expense and tax routes ----

  function Dr(a: Account, x: real, desc: string): Entry {
    Entry(Some(a.id), a.code, Some(x), Some(0.0), desc)
  }

  function Cr(a: Account, x: real, desc: string): Entry {
    Entry(Some(a.id), a.code, Some(0.0), Some(x), desc)
  }

  function Pair(d: Account, c: Account, x: int, dd: string, cd: string, at: int): seq<Line> {
    [Line(d.id, d.code, x, 0, dd, true, Some(at)), Line(c.id, c.code, 0, x, cd, true, Some(at))]
  }

  /** A pair always posts, and both sides are rounded alike. */
  lemma PostPair(s: State, h: Header, d: Account, c: Account, x: real, dd: string, cd: string, now: int)
    ensures PostJournal(s, h, [Dr(d, x, dd), Cr(c, x, cd)], now)
         == Ok(AddJournal(s, h, Pair(d, c, Round(x), dd, cd, now), now))
  {
    var e, f := Dr(d, x, dd), Cr(c, x, cd);
    var es := [e, f];
    RSumPair(e, f, Debited());
    RSumPair(e, f, Credited());
    RoundWhole(0);
    assert forall y :: y in es ==> y == e || y == f;
    assert Map(es, ToLine(now)) == Pair(d, c, Round(x), dd, cd, now);
  }

  lemma PairNet(d: Account, c: Account, x: int, dd: string, cd: string, at: int, a: nat)
    ensures Sum(Pair(d, c, x, dd, cd, at), OnAccount(a))
         == (if d.id == a then x else 0) - (if c.id == a then x else 0)
    ensures Sum(Pair(d, c, x, dd, cd, at), Net()) == 0
  {
    var ls := Pair(d, c, x, dd, cd, at);
    SumPair(ls[0], ls[1], OnAccount(a));
    SumPair(ls[0], ls[1], Net());
  }

  // ---- rounding and the 0.01 tolerance ----

  predicate OneSided(e: Entry) {
    Amount(e.debit) == 0.0 || Amount(e.credit) == 0.0
  }

  function LineError(oneSided: bool, lines: nat): real {
    if oneSided then 0.5 * lines as real else lines as real
  }

  /** Each stored line is within one kobo of what was asked for, half a kobo when it has one side. */
  lemma {:induction false} StoredDrift(es: seq<Entry>, now: int, oneSided: bool)
    requires oneSided ==> forall e :: e in es ==> OneSided(e)
    ensures Near(Sum(Map(es, ToLine(now)), Net()) as real, RSum(es, Debited()) - RSum(es, Credited()),
                 LineError(oneSided, |es|))
  {
    if es != [] {
      StoredDrift(es[1..], now, oneSided);
      var ls := Map(es, ToLine(now));
      assert ls[1..] == Map(es[1..], ToLine(now));
      RoundWhole(0);
      var e := es[0];
      var d, c := Round(Amount(e.debit)), Round(Amount(e.credit));
      assert Net()(ls[0]) as real == d as real - c as real;
      assert e in es && Round(0.0) == 0;
      assert oneSided ==> d == 0 || c == 0;
      assert Near(Net()(ls[0]) as real, Amount(e.debit) - Amount(e.credit), LineError(oneSided, 1));
      assert LineError(oneSided, |es|) == LineError(oneSided, 1) + LineError(oneSided, |es[1..]|);
    }
  }

  /** An accepted journal of k lines is stored within 0.01 + 0.01k naira of balance, 0.01 + 0.005k when one-sided. */
  lemma AcceptedImbalance(s: State, h: Header, es: seq<Entry>, now: int, oneSided: bool)
    requires PostJournal(s, h, es, now).Ok?
    requires oneSided ==> forall e :: e in es ==> OneSided(e)
    ensures var j := PostJournal(s, h, es, now).value.journals[|s.journals|];
            && |j.lines| == |es|
            && Near(JNet()(j) as real, 0.0, TOLERANCE + LineError(oneSided, |j.lines|))
  {
    StoredDrift(es, now, oneSided);
  }
}
