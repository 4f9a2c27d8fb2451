/** Whom the halves of a transfer through the broker pay, and what all halves on chain add up to
    (supervisor/committee/committee_broker.go). */
module BrokerTransfers {
  import opened Placement
  import opened BrokerLifecycle

  // ---------------------------------------------------------------- the halves that are sent

  /** Only these two were ever sent with a raw transfer's number: one from its sender to the broker, once, and
      one from the broker to its recipient, once as soon as the first is reported; both of its value. */
  ghost predicate SentFor(b: Addr, h: History, r: Tx) {
    var first, second := Tx(r.sender, b, r.value, r.nonce), Tx(b, r.recipient, r.value, r.nonce);
    forall t: Tx :: t.nonce == r.nonce ==>
      h.issued[t] == if t == first then 1 else if t == second && first in h.reported then 1 else 0
  }

  lemma SentForEach(b: Addr, st: BrokerState, h: History, r: Tx)
    requires Ok(b, st, h) && r in h.raws
    ensures SentFor(b, h, r)
  {
    Lifecycle(b, st, h, r);
    forall t: Tx | t.nonce == r.nonce && t != Tx1(b, r) && t != Tx2(b, r) ensures h.issued[t] == 0 {
      NotAHalf(b, st, h, r, t);
    }
  }

  lemma NotAHalf(b: Addr, st: BrokerState, h: History, r: Tx, t: Tx)
    requires PoolsOk(b, st, h) && Numbered(h.raws) && IssuedOk(st, h) && r in h.raws
    requires t.nonce == r.nonce && t != Tx1(b, r) && t != Tx2(b, r)
    ensures h.issued[t] == 0
  {
    hide Numbered, Full1, Full2;
    NumberTaken(b, st, h, t);
    if t in st.pool1 {
      SameNumber(h.raws, st.pool1[t], r);
    }
    if t in st.pool2 {
      SameNumber(h.raws, st.pool2[t], r);
    }
  }

  lemma NumberUnknown(b: Addr, st: BrokerState, h: History, t: Tx)
    requires Ok(b, st, h) && NewNumber(h.raws, t)
    ensures h.issued[t] == 0
  {
    NumberTaken(b, st, h, t);
  }

  /** In every run the committee sent exactly these halves for every raw transfer, and nothing else. */
  lemma EveryRunSends(b: Addr, es: seq<Event>, st: BrokerState, h: History)
    requires Run(b, BrokerState(map[], map[], {}, map[]), History({}, multiset{}, {}), es, st, h)
    ensures forall r :: r in h.raws ==> SentFor(b, h, r)
    ensures forall t :: NewNumber(h.raws, t) ==> h.issued[t] == 0
  {
    RunIsOk(b, es, st, h);
    hide Ok, SentFor, Run, NewNumber;
    forall r | r in h.raws ensures SentFor(b, h, r) {
      SentForEach(b, st, h, r);
    }
    forall t | NewNumber(h.raws, t) ensures h.issued[t] == 0 {
      NumberUnknown(b, st, h, t);
    }
  }

  lemma RunIsOk(b: Addr, es: seq<Event>, st: BrokerState, h: History)
    requires Run(b, BrokerState(map[], map[], {}, map[]), History({}, multiset{}, {}), es, st, h)
    ensures Ok(b, st, h)
  {
    hide Ok, Run;
    StartOk(b);
    RunOk(b, BrokerState(map[], map[], {}, map[]), History({}, multiset{}, {}), es, st, h);
  }

  lemma StartOk(b: Addr)
    ensures Ok(b, BrokerState(map[], map[], {}, map[]), History({}, multiset{}, {}))
  {
  }

  // ---------------------------------------------------------------- what they add up to

  /** What executing a transfer changes at an account. */
  function Gain(t: Tx, a: Addr): int {
    (if t.recipient == a then t.value else 0) - if t.sender == a then t.value else 0
  }

  /** What executing all transfers of a set changes at an account. */
  ghost function Change(txs: set<Tx>, a: Addr): int {
    if txs == {} then 0 else
      var t :| t in txs;
      Gain(t, a) + Change(txs - {t}, a)
  }

  lemma {:induction false} ChangeOut(txs: set<Tx>, a: Addr, t: Tx)
    requires t in txs
    ensures Change(txs, a) == Gain(t, a) + Change(txs - {t}, a)
  {
    var u :| u in txs && Change(txs, a) == Gain(u, a) + Change(txs - {u}, a);
    if u != t {
      ChangeOut(txs - {u}, a, t);
      ChangeOut(txs - {t}, a, u);
      assert txs - {u} - {t} == txs - {t} - {u};
    }
  }

  /** The value of the transfers of a set that `a` sends. */
  ghost function SentBy(txs: set<Tx>, a: Addr): int {
    if txs == {} then 0 else
      var t :| t in txs;
      (if t.sender == a then t.value else 0) + SentBy(txs - {t}, a)
  }

  lemma {:induction false} SentByOut(txs: set<Tx>, a: Addr, t: Tx)
    requires t in txs
    ensures SentBy(txs, a) == (if t.sender == a then t.value else 0) + SentBy(txs - {t}, a)
  {
    var u :| u in txs && SentBy(txs, a) == (if u.sender == a then u.value else 0) + SentBy(txs - {u}, a);
    if u != t {
      SentByOut(txs - {u}, a, t);
      SentByOut(txs - {t}, a, u);
      assert txs - {u} - {t} == txs - {t} - {u};
    }
  }

  ghost function Value(txs: set<Tx>): int {
    if txs == {} then 0 else
      var t :| t in txs;
      t.value + Value(txs - {t})
  }

  lemma {:induction false} ValueOut(txs: set<Tx>, t: Tx)
    requires t in txs
    ensures Value(txs) == t.value + Value(txs - {t})
  {
    var u :| u in txs && Value(txs) == u.value + Value(txs - {u});
    if u != t {
      ValueOut(txs - {u}, t);
      ValueOut(txs - {t}, u);
      assert txs - {u} - {t} == txs - {t} - {u};
    }
  }

  /** Raw transfers of which both halves are on chain, and of which only the first is. */
  ghost function Completed(b: Addr, h: History): set<Tx> {
    set r | r in h.raws && Tx(r.sender, b, r.value, r.nonce) in h.reported && Tx(b, r.recipient, r.value, r.nonce) in h.reported
  }

  ghost function HalfDone(b: Addr, h: History): set<Tx> {
    set r | r in h.raws && Tx(r.sender, b, r.value, r.nonce) in h.reported && Tx(b, r.recipient, r.value, r.nonce) !in h.reported
  }

  /** `reported` is both halves of `done` and the first halves of `half`. */
  ghost predicate MadeOf(b: Addr, reported: set<Tx>, done: set<Tx>, half: set<Tx>) {
    && RawsOk(b, done + half) && done !! half
    && forall t :: t in reported <==>
         || (exists r :: r in done + half && t == Tx1(b, r))
         || (exists r :: r in done && t == Tx2(b, r))
  }

  lemma MadeOfLess(b: Addr, reported: set<Tx>, done: set<Tx>, half: set<Tx>, r: Tx)
    requires MadeOf(b, reported, done, half)
    ensures r in done ==> Tx1(b, r) in reported && Tx2(b, r) in reported && Tx1(b, r) != Tx2(b, r)
                          && MadeOf(b, reported - {Tx1(b, r)} - {Tx2(b, r)}, done - {r}, half)
    ensures r in half ==> Tx1(b, r) in reported && MadeOf(b, reported - {Tx1(b, r)}, done, half - {r})
  {
    if r in done {
      HalvesDiffer(b, done + half, r);
      LessDone(b, reported, done, half, r);
    }
    if r in half {
      HalvesDiffer(b, done + half, r);
      LessHalf(b, reported, done, half, r);
    }
  }

  lemma LessDone(b: Addr, reported: set<Tx>, done: set<Tx>, half: set<Tx>, r: Tx)
    requires MadeOf(b, reported, done, half) && r in done && Tx1(b, r) != Tx2(b, r)
    requires forall q :: q in done + half ==> Tx1(b, q) != Tx2(b, r) && Tx2(b, q) != Tx1(b, r)
    requires forall q :: q in done + half && q != r ==> Tx1(b, q) != Tx1(b, r) && Tx2(b, q) != Tx2(b, r)
    ensures Tx1(b, r) in reported && Tx2(b, r) in reported
    ensures MadeOf(b, reported - {Tx1(b, r)} - {Tx2(b, r)}, done - {r}, half)
  {
    hide Tx1, Tx2;
  }

  lemma LessHalf(b: Addr, reported: set<Tx>, done: set<Tx>, half: set<Tx>, r: Tx)
    requires MadeOf(b, reported, done, half) && r in half
    requires forall q :: q in done + half ==> Tx1(b, q) != Tx2(b, r) && Tx2(b, q) != Tx1(b, r)
    requires forall q :: q in done + half && q != r ==> Tx1(b, q) != Tx1(b, r) && Tx2(b, q) != Tx2(b, r)
    ensures Tx1(b, r) in reported && MadeOf(b, reported - {Tx1(b, r)}, done, half - {r})
  {
    hide Tx1, Tx2;
  }

  /** Halves on chain change an account as the completed transfers executed directly would, except that the
      senders of half-done ones have paid already, and the broker holds that money. */
  lemma {:induction false} HalvesAddUp(b: Addr, reported: set<Tx>, done: set<Tx>, half: set<Tx>, a: Addr)
    requires MadeOf(b, reported, done, half)
    ensures Change(reported, a) == Change(done, a) + if a == b then Value(half) else -SentBy(half, a)
    decreases |done| + |half|
  {
    hide MadeOf, Tx1, Tx2, Gain, Change, SentBy, Value;
    if done != {} {
      var r :| r in done;
      MadeOfLess(b, reported, done, half, r);
      HalvesAddUp(b, reported - {Tx1(b, r)} - {Tx2(b, r)}, done - {r}, half, a);
      DoneAddsUp(b, reported, done, half, r, a);
    } else if half != {} {
      var r :| r in half;
      MadeOfLess(b, reported, done, half, r);
      HalvesAddUp(b, reported - {Tx1(b, r)}, done, half - {r}, a);
      HalfAddsUp(b, reported, done, half, r, a);
    } else {
      NoneAddUp(b, reported, a);
    }
  }

  lemma NoneAddUp(b: Addr, reported: set<Tx>, a: Addr)
    requires MadeOf(b, reported, {}, {})
    ensures Change(reported, a) == 0 && Change({}, a) == 0 && Value({}) == 0 && SentBy({}, a) == 0
  {
    assert reported == {};
  }

  lemma DoneAddsUp(b: Addr, reported: set<Tx>, done: set<Tx>, half: set<Tx>, r: Tx, a: Addr)
    requires MadeOf(b, reported, done, half) && r in done
    requires Tx1(b, r) in reported && Tx2(b, r) in reported && Tx1(b, r) != Tx2(b, r)
    ensures Change(reported, a) - Change(done, a) == Change(reported - {Tx1(b, r)} - {Tx2(b, r)}, a) - Change(done - {r}, a)
  {
    BothHalves(b, done, half, r, a);
    hide MadeOf, Tx1, Tx2, Gain, Change;
    ChangeOut(reported, a, Tx1(b, r));
    ChangeOut(reported - {Tx1(b, r)}, a, Tx2(b, r));
    ChangeOut(done, a, r);
  }

  lemma HalfAddsUp(b: Addr, reported: set<Tx>, done: set<Tx>, half: set<Tx>, r: Tx, a: Addr)
    requires MadeOf(b, reported, done, half) && r in half && Tx1(b, r) in reported
    ensures Change(reported, a) == Change(reported - {Tx1(b, r)}, a)
              + if a == b then Value(half) - Value(half - {r}) else SentBy(half - {r}, a) - SentBy(half, a)
  {
    FirstHalf(b, done, half, r, a);
    hide MadeOf, Tx1, Tx2, Gain, Change, SentBy, Value;
    ChangeOut(reported, a, Tx1(b, r));
    SentByOut(half, a, r);
    ValueOut(half, r);
  }

  lemma BothHalves(b: Addr, done: set<Tx>, half: set<Tx>, r: Tx, a: Addr)
    requires RawsOk(b, done + half) && r in done
    ensures Gain(Tx1(b, r), a) + Gain(Tx2(b, r), a) == Gain(r, a)
  {
    assert r in done + half;
  }

  lemma FirstHalf(b: Addr, done: set<Tx>, half: set<Tx>, r: Tx, a: Addr)
    requires RawsOk(b, done + half) && r in half
    ensures Gain(Tx1(b, r), a) == if a == b then r.value else if r.sender == a then -r.value else 0
  {
    assert r in done + half;
  }

  /** In every run, executing all halves that are on chain moves the balance of every account as executing the
      completed raw transfers directly does; only half-done transfers show: their senders have paid, their
      recipients have not been paid, and the broker is up by exactly their value. */
  lemma EveryRunSettles(b: Addr, es: seq<Event>, st: BrokerState, h: History, a: Addr)
    requires Run(b, BrokerState(map[], map[], {}, map[]), History({}, multiset{}, {}), es, st, h)
    ensures a != b ==> Change(h.reported, a) == Change(Completed(b, h), a) - SentBy(HalfDone(b, h), a)
    ensures Change(h.reported, b) == Value(HalfDone(b, h)) && Change(Completed(b, h), b) == 0
  {
    RunIsOk(b, es, st, h);
    ReportedMadeOf(b, st, h);
    HalvesAddUp(b, h.reported, Completed(b, h), HalfDone(b, h), a);
    HalvesAddUp(b, h.reported, Completed(b, h), HalfDone(b, h), b);
    NothingToBroker(b, Completed(b, h));
  }

  lemma {:induction false} NothingToBroker(b: Addr, raws: set<Tx>)
    requires Outsiders(b, raws)
    ensures Change(raws, b) == 0
  {
    if raws != {} {
      var r :| r in raws;
      ChangeOut(raws, b, r);
      NothingToBroker(b, raws - {r});
    }
  }

  lemma ReportedMadeOf(b: Addr, st: BrokerState, h: History)
    requires Ok(b, st, h)
    ensures MadeOf(b, h.reported, Completed(b, h), HalfDone(b, h)) && Outsiders(b, Completed(b, h))
  {
    var done, half := Completed(b, h), HalfDone(b, h);
    hide EntriesOk, Full1, Full2;
    forall t | t in h.reported
      ensures (exists r :: r in done + half && t == Tx1(b, r)) || (exists r :: r in done && t == Tx2(b, r))
    {
      if t in st.pool1 {
        assert st.pool1[t] in done + half;
      } else {
        assert st.pool2[t] in done;
      }
    }
  }
}
