/** The broker committee: a cross-shard transfer becomes a transfer to the broker and, once that is reported
    on chain, a transfer from the broker (supervisor/committee/committee_broker.go, broker/broker.go). */
module BrokerLifecycle {
  import opened Placement

  /** A transfer; hashes are injective, so it stands for its own hash. */
  datatype Tx = Tx(sender: Addr, recipient: Addr, value: int, nonce: nat)

  /** The two halves of a raw transfer through broker `b`. */
  function Tx1(b: Addr, r: Tx): Tx { Tx(r.sender, b, r.value, r.nonce) }
  function Tx2(b: Addr, r: Tx): Tx { Tx(b, r.recipient, r.value, r.nonce) }

  type Pool = map<Tx, Tx>  // from the hash of a half to its raw transfer
  type Entries = map<Tx, seq<Tx>>

  /** brokerConfirm1Pool, brokerConfirm2Pool, BrokerRawMegs and RawTx2BrokerTx. */
  datatype BrokerState = BrokerState(pool1: Pool, pool2: Pool, rawMegs: set<Tx>, entries: Entries)

  function EntryOf(entries: Entries, r: Tx): seq<Tx> {
    if r in entries then entries[r] else []
  }

  function Log(entries: Entries, r: Tx, half: Tx): Entries {
    entries[r := EntryOf(entries, r) + [half]]
  }

  // ---------------------------------------------------------------- what the handlers do

  function AddRaw(st: BrokerState, b: Addr, r: Tx): BrokerState {
    st.(rawMegs := st.rawMegs + {r}, pool1 := st.pool1[Tx1(b, r) := r])
  }

  function AddRaws(st: BrokerState, b: Addr, rs: seq<Tx>): BrokerState {
    if rs == [] then st else AddRaw(AddRaws(st, b, rs[..|rs| - 1]), b, rs[|rs| - 1])
  }

  /** Confirmations of first halves: log them and prepare the second halves. */
  function Confirm1(st: BrokerState, b: Addr, r: Tx): BrokerState {
    if r !in st.rawMegs then st else st.(entries := Log(st.entries, r, Tx1(b, r)), pool2 := st.pool2[Tx2(b, r) := r])
  }

  function Confirm1s(st: BrokerState, b: Addr, rs: seq<Tx>): BrokerState {
    if rs == [] then st else Confirm1(Confirm1s(st, b, rs[..|rs| - 1]), b, rs[|rs| - 1])
  }

  function Confirm2s(st: BrokerState, b: Addr, rs: seq<Tx>): BrokerState {
    if rs == [] then st else
      var p := Confirm2s(st, b, rs[..|rs| - 1]);
      p.(entries := Log(p.entries, rs[|rs| - 1], Tx2(b, rs[|rs| - 1])))
  }

  /** The raw transfers whose half in this pool is reported, in the order of the report. */
  function Hits(pool: Pool, txs: seq<Tx>): seq<Tx> {
    if txs == [] then [] else
      Hits(pool, txs[..|txs| - 1]) + if txs[|txs| - 1] in pool then [pool[txs[|txs| - 1]]] else []
  }

  /** createConfirm. */
  function CreateConfirm(st: BrokerState, b: Addr, txs: seq<Tx>): BrokerState {
    Confirm2s(Confirm1s(st, b, Hits(st.pool1, txs)), b, Hits(st.pool2, txs))
  }

  function Tx1s(b: Addr, rs: seq<Tx>): seq<Tx> {
    if rs == [] then [] else Tx1s(b, rs[..|rs| - 1]) + [Tx1(b, rs[|rs| - 1])]
  }

  function Tx2s(b: Addr, rs: seq<Tx>): seq<Tx> {
    if rs == [] then [] else Tx2s(b, rs[..|rs| - 1]) + [Tx2(b, rs[|rs| - 1])]
  }

  // ---------------------------------------------------------------- the life of a raw transfer

  /** History: the raw transfers taken in, the halves sent out, the halves reported from the chain. */
  datatype History = History(raws: set<Tx>, issued: multiset<Tx>, reported: set<Tx>)

  /** How far a raw transfer is: nothing reported, the first half, or both. */
  function Stage(b: Addr, h: History, r: Tx): seq<Tx> {
    if Tx1(b, r) !in h.reported then [] else if Tx2(b, r) !in h.reported then [Tx1(b, r)] else [Tx1(b, r), Tx2(b, r)]
  }

  ghost predicate Outsiders(b: Addr, raws: set<Tx>) {
    forall r :: r in raws ==> r.sender != b && r.recipient != b
  }

  ghost predicate Numbered(raws: set<Tx>) {
    forall r, q :: r in raws && q in raws && r.nonce == q.nonce ==> r == q
  }

  /** Neither end is the broker, and every transfer has its own number. */
  ghost predicate RawsOk(b: Addr, raws: set<Tx>) {
    Outsiders(b, raws) && Numbered(raws)
  }

  ghost predicate Back1(b: Addr, pool1: Pool, raws: set<Tx>) {
    forall t :: t in pool1 ==> pool1[t] in raws && t == Tx1(b, pool1[t])
  }

  ghost predicate Back2(b: Addr, pool2: Pool, h: History) {
    forall t :: t in pool2 ==> pool2[t] in h.raws && t == Tx2(b, pool2[t]) && Tx1(b, pool2[t]) in h.reported
  }

  ghost predicate Full1(b: Addr, pool1: Pool, raws: set<Tx>) {
    forall r :: r in raws ==> Tx1(b, r) in pool1
  }

  ghost predicate Full2(b: Addr, pool2: Pool, h: History) {
    forall r :: r in h.raws && Tx1(b, r) in h.reported ==> Tx2(b, r) in pool2
  }

  /** Every raw transfer has a first half, and a second half once the first is reported. */
  ghost predicate PoolsOk(b: Addr, st: BrokerState, h: History) {
    && st.rawMegs == h.raws
    && Back1(b, st.pool1, h.raws) && Full1(b, st.pool1, h.raws)
    && Back2(b, st.pool2, h) && Full2(b, st.pool2, h)
  }

  /** Exactly these halves were sent out, once each, and only they can be on chain. */
  ghost predicate IssuedOk(st: BrokerState, h: History) {
    && (forall t :: h.issued[t] == if t in st.pool1 || t in st.pool2 then 1 else 0)
    && (forall t :: t in h.reported ==> t in st.pool1 || t in st.pool2)
  }

  ghost predicate EntriesOk(b: Addr, st: BrokerState, h: History) {
    forall r :: EntryOf(st.entries, r) == if r in h.raws then Stage(b, h, r) else []
  }

  ghost predicate Ok(b: Addr, st: BrokerState, h: History) {
    RawsOk(b, h.raws) && PoolsOk(b, st, h) && IssuedOk(st, h) && EntriesOk(b, st, h)
  }

  /** The life of a raw transfer: its first half is sent once, its second half once and only after the first
      was reported, both for the same value, and its entry says how far it is. */
  lemma Lifecycle(b: Addr, st: BrokerState, h: History, r: Tx)
    requires Ok(b, st, h) && r in h.raws
    ensures h.issued[Tx1(b, r)] == 1
    ensures h.issued[Tx2(b, r)] == if Tx1(b, r) in h.reported then 1 else 0
    ensures Tx2(b, r) in h.reported ==> Tx1(b, r) in h.reported
    ensures EntryOf(st.entries, r) == Stage(b, h, r)
    ensures Tx1(b, r) != Tx2(b, r) && Tx1(b, r).value == Tx2(b, r).value == r.value
  {
    SecondHalf(b, st, h, r);
  }

  /** A second half is pending exactly if the first half of the same transfer is reported. */
  lemma SecondHalf(b: Addr, st: BrokerState, h: History, r: Tx)
    requires RawsOk(b, h.raws) && PoolsOk(b, st, h) && r in h.raws
    ensures Tx2(b, r) in st.pool2 <==> Tx1(b, r) in h.reported
    ensures Tx2(b, r) !in st.pool1 && Tx1(b, r) !in st.pool2
  {
    InPool2(b, st.pool2, h, r);
    NotIn1(b, st.pool1, h.raws, Tx2(b, r));
    NotIn2(b, st.pool2, h, Tx1(b, r));
  }

  lemma InPool2(b: Addr, pool2: Pool, h: History, r: Tx)
    requires Back2(b, pool2, h) && Full2(b, pool2, h) && Numbered(h.raws) && r in h.raws
    ensures Tx2(b, r) in pool2 <==> Tx1(b, r) in h.reported
  {
    hide Numbered;
    if Tx2(b, r) in pool2 {
      SameNumber(h.raws, pool2[Tx2(b, r)], r);
    }
  }

  lemma SameNumber(raws: set<Tx>, q: Tx, r: Tx)
    requires Numbered(raws) && q in raws && r in raws && q.nonce == r.nonce
    ensures q == r
  {
  }

  lemma NotIn1(b: Addr, pool1: Pool, raws: set<Tx>, t: Tx)
    requires Back1(b, pool1, raws) && Outsiders(b, raws) && t.sender == b
    ensures t !in pool1
  {
    assert t in pool1 ==> pool1[t].sender == b;
  }

  lemma NotIn2(b: Addr, pool2: Pool, h: History, t: Tx)
    requires Back2(b, pool2, h) && Outsiders(b, h.raws) && t.recipient == b
    ensures t !in pool2
  {
    assert t in pool2 ==> pool2[t].recipient == b;
  }

  // ---------------------------------------------------------------- one raw transfer at a time

  function TakenIn(h: History, b: Addr, r: Tx): History {
    h.(raws := h.raws + {r}, issued := h.issued + multiset{Tx1(b, r)})
  }

  ghost predicate NewNumber(raws: set<Tx>, r: Tx) {
    forall q :: q in raws ==> q.nonce != r.nonce
  }

  lemma AddRawOk(b: Addr, st: BrokerState, h: History, r: Tx)
    requires Ok(b, st, h) && r.sender != b && r.recipient != b && NewNumber(h.raws, r)
    ensures Ok(b, AddRaw(st, b, r), TakenIn(h, b, r))
  {
    FreshHalves(b, st, h, r);
    AddRawPools(b, st, h, r);
    hide PoolsOk, RawsOk, NewNumber;
    AddRawEntries(b, st, h, r);
    AddRawIssued(b, st, h, r);
    hide EntriesOk, IssuedOk, AddRaw, TakenIn, Tx1, Tx2;
  }

  lemma AddRawEntries(b: Addr, st: BrokerState, h: History, r: Tx)
    requires EntriesOk(b, st, h) && r !in h.raws && Tx1(b, r) !in h.reported
    ensures EntriesOk(b, AddRaw(st, b, r), TakenIn(h, b, r))
  {
    hide Tx1, Tx2;
  }

  lemma AddRawIssued(b: Addr, st: BrokerState, h: History, r: Tx)
    requires IssuedOk(st, h) && Tx1(b, r) !in st.pool1 && Tx1(b, r) !in st.pool2
    ensures IssuedOk(AddRaw(st, b, r), TakenIn(h, b, r))
  {
    hide Tx1;
  }

  lemma AddRawPools(b: Addr, st: BrokerState, h: History, r: Tx)
    requires PoolsOk(b, st, h) && RawsOk(b, h.raws) && r.sender != b && r.recipient != b && NewNumber(h.raws, r)
    requires Tx1(b, r) !in st.pool1 && Tx1(b, r) !in h.reported
    ensures PoolsOk(b, AddRaw(st, b, r), TakenIn(h, b, r)) && RawsOk(b, TakenIn(h, b, r).raws)
  {
  }

  lemma FreshHalves(b: Addr, st: BrokerState, h: History, r: Tx)
    requires PoolsOk(b, st, h) && IssuedOk(st, h) && NewNumber(h.raws, r)
    ensures r !in h.raws
    ensures Tx1(b, r) !in st.pool1 && Tx1(b, r) !in st.pool2 && Tx2(b, r) !in st.pool1 && Tx2(b, r) !in st.pool2
    ensures Tx1(b, r) !in h.reported && Tx2(b, r) !in h.reported
  {
    hide Full1, Full2;
    NumberTaken(b, st, h, Tx1(b, r));
    NumberTaken(b, st, h, Tx2(b, r));
  }

  lemma NumberTaken(b: Addr, st: BrokerState, h: History, t: Tx)
    requires Back1(b, st.pool1, h.raws) && Back2(b, st.pool2, h)
    ensures t in st.pool1 ==> st.pool1[t] in h.raws && st.pool1[t].nonce == t.nonce
    ensures t in st.pool2 ==> st.pool2[t] in h.raws && st.pool2[t].nonce == t.nonce
  {
  }

  function Reported1(h: History, b: Addr, r: Tx): History {
    h.(issued := h.issued + multiset{Tx2(b, r)}, reported := h.reported + {Tx1(b, r)})
  }

  /** The halves of two transfers are four. */
  lemma HalvesDiffer(b: Addr, raws: set<Tx>, r: Tx)
    requires RawsOk(b, raws) && r in raws
    ensures forall q :: q in raws ==> Tx1(b, q) != Tx2(b, r) && Tx2(b, q) != Tx1(b, r)
    ensures forall q :: q in raws && q != r ==> Tx1(b, q) != Tx1(b, r) && Tx2(b, q) != Tx2(b, r)
  {
    forall q | q in raws ensures q != r ==> q.nonce != r.nonce {
    }
  }

  lemma Confirm1Ok(b: Addr, st: BrokerState, h: History, r: Tx)
    requires Ok(b, st, h) && r in h.raws && Tx1(b, r) !in h.reported
    ensures Ok(b, Confirm1(st, b, r), Reported1(h, b, r))
  {
    SecondHalf(b, st, h, r);
    HalvesDiffer(b, h.raws, r);
    Confirm1Pools(b, st, h, r);
    assert r in st.rawMegs && Tx1(b, r) in st.pool1;
    assert Tx2(b, r) !in h.reported;
    hide PoolsOk, RawsOk, EntriesOk;
    Confirm1Entries(b, st, h, r);
    Confirm1Issued(b, st, h, r);
    hide IssuedOk, Confirm1, Reported1;
  }

  lemma Confirm1Issued(b: Addr, st: BrokerState, h: History, r: Tx)
    requires IssuedOk(st, h) && r in st.rawMegs && Tx1(b, r) in st.pool1 && Tx2(b, r) !in st.pool1 && Tx2(b, r) !in st.pool2
    ensures IssuedOk(Confirm1(st, b, r), Reported1(h, b, r))
  {
    hide Tx1, Tx2, Log;
  }

  lemma Confirm1Entries(b: Addr, st: BrokerState, h: History, r: Tx)
    requires EntriesOk(b, st, h) && r in h.raws && r in st.rawMegs && Tx1(b, r) !in h.reported && Tx2(b, r) !in h.reported
    requires forall q :: q in h.raws ==> Tx1(b, q) != Tx2(b, r) && Tx2(b, q) != Tx1(b, r)
    requires forall q :: q in h.raws && q != r ==> Tx1(b, q) != Tx1(b, r)
    ensures EntriesOk(b, Confirm1(st, b, r), Reported1(h, b, r))
  {
    assert EntryOf(st.entries, r) == [];
  }

  lemma Confirm1Pools(b: Addr, st: BrokerState, h: History, r: Tx)
    requires PoolsOk(b, st, h) && RawsOk(b, h.raws) && r in h.raws
    ensures PoolsOk(b, Confirm1(st, b, r), Reported1(h, b, r))
  {
    HalvesDiffer(b, h.raws, r);
    hide Numbered, Outsiders, Full1;
  }

  function Reported2(h: History, b: Addr, r: Tx): History {
    h.(reported := h.reported + {Tx2(b, r)})
  }

  lemma Confirm2Ok(b: Addr, st: BrokerState, h: History, r: Tx)
    requires Ok(b, st, h) && r in h.raws && Tx1(b, r) in h.reported && Tx2(b, r) !in h.reported
    ensures Ok(b, st.(entries := Log(st.entries, r, Tx2(b, r))), Reported2(h, b, r))
  {
    SecondHalf(b, st, h, r);
    HalvesDiffer(b, h.raws, r);
    Confirm2Pools(b, st, h, r);
    hide PoolsOk, RawsOk;
  }

  lemma Confirm2Pools(b: Addr, st: BrokerState, h: History, r: Tx)
    requires PoolsOk(b, st, h) && RawsOk(b, h.raws) && r in h.raws
    ensures PoolsOk(b, st.(entries := Log(st.entries, r, Tx2(b, r))), Reported2(h, b, r))
  {
    HalvesDiffer(b, h.raws, r);
    hide Numbered, Outsiders, Full1;
  }

  // ---------------------------------------------------------------- batches

  ghost predicate Distinct(rs: seq<Tx>) {
    forall p, q :: 0 <= p < q < |rs| ==> rs[p] != rs[q]
  }

  ghost predicate DistinctNonces(rs: seq<Tx>) {
    forall p, q :: 0 <= p < q < |rs| ==> rs[p].nonce != rs[q].nonce
  }

  function TakenInAll(h: History, b: Addr, rs: seq<Tx>): History {
    if rs == [] then h else TakenIn(TakenInAll(h, b, rs[..|rs| - 1]), b, rs[|rs| - 1])
  }

  lemma {:induction false} AddRawsOk(b: Addr, st: BrokerState, h: History, rs: seq<Tx>)
    requires Ok(b, st, h) && DistinctNonces(rs)
    requires forall r :: r in rs ==> r.sender != b && r.recipient != b && NewNumber(h.raws, r)
    ensures Ok(b, AddRaws(st, b, rs), TakenInAll(h, b, rs))
    ensures forall r :: r in TakenInAll(h, b, rs).raws <==> r in h.raws || r in rs
    ensures TakenInAll(h, b, rs).reported == h.reported
    ensures TakenInAll(h, b, rs).issued == h.issued + multiset(Tx1s(b, rs))
  {
    hide Ok, AddRaw;
    if rs != [] {
      var init, r := rs[..|rs| - 1], rs[|rs| - 1];
      AddRawsOk(b, st, h, init);
      assert rs == init + [r];
      AddRawOk(b, AddRaws(st, b, init), TakenInAll(h, b, init), r);
    }
  }

  function Reported1s(h: History, b: Addr, rs: seq<Tx>): History {
    if rs == [] then h else Reported1(Reported1s(h, b, rs[..|rs| - 1]), b, rs[|rs| - 1])
  }

  function Reported2s(h: History, b: Addr, rs: seq<Tx>): History {
    if rs == [] then h else Reported2(Reported2s(h, b, rs[..|rs| - 1]), b, rs[|rs| - 1])
  }

  /** What a batch of reports adds. */
  lemma {:induction false} Reported1sIs(h: History, b: Addr, rs: seq<Tx>)
    ensures Reported1s(h, b, rs).raws == h.raws
    ensures Reported1s(h, b, rs).issued == h.issued + multiset(Tx2s(b, rs))
    ensures Reported1s(h, b, rs).reported == h.reported + set t | t in Tx1s(b, rs)
  {
    if rs != [] {
      Reported1sIs(h, b, rs[..|rs| - 1]);
    }
  }

  lemma {:induction false} HalvesAre(b: Addr, rs: seq<Tx>)
    ensures forall t :: t in Tx1s(b, rs) <==> exists r :: r in rs && t == Tx1(b, r)
    ensures forall t :: t in Tx2s(b, rs) <==> exists r :: r in rs && t == Tx2(b, r)
  {
    if rs != [] {
      var init, r := rs[..|rs| - 1], rs[|rs| - 1];
      HalvesAre(b, init);
      assert rs == init + [r];
    }
  }

  lemma {:induction false} Reported2sIs(h: History, b: Addr, rs: seq<Tx>)
    ensures Reported2s(h, b, rs).raws == h.raws && Reported2s(h, b, rs).issued == h.issued
    ensures Reported2s(h, b, rs).reported == h.reported + set t | t in Tx2s(b, rs)
  {
    if rs != [] {
      Reported2sIs(h, b, rs[..|rs| - 1]);
    }
  }

  lemma {:induction false} Confirm1sOk(b: Addr, st: BrokerState, h: History, rs: seq<Tx>)
    requires Ok(b, st, h) && DistinctNonces(rs) && forall r :: r in rs ==> r in h.raws && Tx1(b, r) !in h.reported
    ensures Ok(b, Confirm1s(st, b, rs), Reported1s(h, b, rs))
  {
    if rs != [] {
      var init, r := rs[..|rs| - 1], rs[|rs| - 1];
      Confirm1sOk(b, st, h, init);
      Reported1sIs(h, b, init);
      HalvesAre(b, init);
      assert forall q :: q in init ==> q.nonce != r.nonce;
      hide Ok, Confirm1;
      Confirm1Ok(b, Confirm1s(st, b, init), Reported1s(h, b, init), r);
    }
  }

  lemma {:induction false} Confirm2sOk(b: Addr, st: BrokerState, h: History, rs: seq<Tx>)
    requires Ok(b, st, h) && DistinctNonces(rs)
    requires forall r :: r in rs ==> r in h.raws && Tx1(b, r) in h.reported && Tx2(b, r) !in h.reported
    ensures Ok(b, Confirm2s(st, b, rs), Reported2s(h, b, rs))
  {
    if rs != [] {
      var init, r := rs[..|rs| - 1], rs[|rs| - 1];
      Confirm2sOk(b, st, h, init);
      Reported2sIs(h, b, init);
      HalvesAre(b, init);
      assert forall q :: q in init ==> q.nonce != r.nonce;
      hide Ok, Log;
      Confirm2Ok(b, Confirm2s(st, b, init), Reported2s(h, b, init), r);
    }
  }

  // ---------------------------------------------------------------- a report

  lemma {:induction false} HitsAre(pool: Pool, txs: seq<Tx>)
    ensures forall r :: r in Hits(pool, txs) <==> exists t :: t in txs && t in pool && pool[t] == r
  {
    if txs != [] {
      HitsAre(pool, txs[..|txs| - 1]);
      assert txs == txs[..|txs| - 1] + [txs[|txs| - 1]];
    }
  }

  /** Halves of different transfers have different numbers. */
  lemma {:induction false} HitsDistinct(pool: Pool, txs: seq<Tx>)
    requires Distinct(txs) && forall t :: t in pool ==> pool[t].nonce == t.nonce
    requires forall t, u :: t in pool && u in pool && t.nonce == u.nonce ==> t == u
    ensures DistinctNonces(Hits(pool, txs))
  {
    if txs != [] {
      var init, t := txs[..|txs| - 1], txs[|txs| - 1];
      HitsDistinct(pool, init);
      HitsAre(pool, init);
      if t in pool {
        forall r | r in Hits(pool, init) ensures r.nonce != t.nonce {
          var u :| u in init && u in pool && pool[u] == r;
        }
      }
    }
  }

  function AfterReport(st: BrokerState, h: History, b: Addr, txs: seq<Tx>): History {
    Reported2s(Reported1s(h, b, Hits(st.pool1, txs)), b, Hits(st.pool2, txs))
  }

  /** A report of halves that are on chain, each for the first time, keeps every transfer's life in order. */
  lemma ReportOk(b: Addr, st: BrokerState, h: History, txs: seq<Tx>)
    requires Ok(b, st, h) && Distinct(txs) && forall t :: t in txs ==> h.issued[t] > 0 && t !in h.reported
    ensures Ok(b, CreateConfirm(st, b, txs), AfterReport(st, h, b, txs))
  {
    var rs1, rs2 := Hits(st.pool1, txs), Hits(st.pool2, txs);
    ReportHits(b, st, h, txs);
    Confirm1sOk(b, st, h, rs1);
    Reported1sIs(h, b, rs1);
    SecondNotYet(b, st, h, txs);
    hide Ok, Hits;
    Confirm2sOk(b, Confirm1s(st, b, rs1), Reported1s(h, b, rs1), rs2);
  }

  lemma ReportHits(b: Addr, st: BrokerState, h: History, txs: seq<Tx>)
    requires Ok(b, st, h) && Distinct(txs) && forall t :: t in txs ==> t !in h.reported
    ensures DistinctNonces(Hits(st.pool1, txs)) && DistinctNonces(Hits(st.pool2, txs))
    ensures forall r :: r in Hits(st.pool1, txs) ==> r in h.raws && Tx1(b, r) !in h.reported
    ensures forall r :: r in Hits(st.pool2, txs) ==> r in h.raws && Tx1(b, r) in h.reported && Tx2(b, r) !in h.reported
  {
    HitsAre(st.pool1, txs);
    HitsAre(st.pool2, txs);
    HitsDistinct(st.pool1, txs);
    HitsDistinct(st.pool2, txs);
  }

  lemma SecondNotYet(b: Addr, st: BrokerState, h: History, txs: seq<Tx>)
    requires Ok(b, st, h) && Distinct(txs) && forall t :: t in txs ==> t !in h.reported
    ensures forall r :: r in Hits(st.pool2, txs) ==>
              Tx2(b, r) !in Reported1s(h, b, Hits(st.pool1, txs)).reported && Tx1(b, r) in Reported1s(h, b, Hits(st.pool1, txs)).reported
  {
    ReportHits(b, st, h, txs);
    Reported1sIs(h, b, Hits(st.pool1, txs));
    HalvesAre(b, Hits(st.pool1, txs));
    hide Hits, Reported1s, Tx1s;
    forall r, q | r in Hits(st.pool2, txs) && q in Hits(st.pool1, txs) ensures Tx2(b, r) != Tx1(b, q) {
      assert q.sender != b;
    }
  }

  /** Afterwards exactly the reported halves are reported in addition. */
  lemma ReportedExactly(b: Addr, st: BrokerState, h: History, txs: seq<Tx>)
    requires Ok(b, st, h) && forall t :: t in txs ==> h.issued[t] > 0
    ensures AfterReport(st, h, b, txs).reported == h.reported + set t | t in txs
    ensures AfterReport(st, h, b, txs).issued == h.issued + multiset(Tx2s(b, Hits(st.pool1, txs)))
    ensures AfterReport(st, h, b, txs).raws == h.raws
  {
    var rs1, rs2 := Hits(st.pool1, txs), Hits(st.pool2, txs);
    Reported1sIs(h, b, rs1);
    Reported2sIs(Reported1s(h, b, rs1), b, rs2);
    EveryReportHits(b, st, h, txs);
    hide Hits, Reported1s, Reported2s, Ok, Tx1s, Tx2s;
  }

  /** What is reported is a half of a transfer that is hit, and the other way round. */
  lemma EveryReportHits(b: Addr, st: BrokerState, h: History, txs: seq<Tx>)
    requires Ok(b, st, h) && forall t :: t in txs ==> h.issued[t] > 0
    ensures forall t :: t in txs <==> t in Tx1s(b, Hits(st.pool1, txs)) || t in Tx2s(b, Hits(st.pool2, txs))
  {
    HitsAre(st.pool1, txs);
    HitsAre(st.pool2, txs);
    HalvesAre(b, Hits(st.pool1, txs));
    HalvesAre(b, Hits(st.pool2, txs));
    hide Hits, RawsOk, EntriesOk, Full1, Full2, Tx1s, Tx2s;
    forall t | t in txs ensures t in Tx1s(b, Hits(st.pool1, txs)) || t in Tx2s(b, Hits(st.pool2, txs)) {
      if t in st.pool1 {
        assert st.pool1[t] in Hits(st.pool1, txs) && t == Tx1(b, st.pool1[t]);
      } else {
        assert st.pool2[t] in Hits(st.pool2, txs) && t == Tx2(b, st.pool2[t]);
      }
    }
  }

  // ---------------------------------------------------------------- runs

  /** A batch of raw transfers is taken in, or a block reports halves. */
  datatype Event = TakeIn(rs: seq<Tx>) | Report(txs: seq<Tx>)

  /** New transfers have new numbers and do not involve the broker; only what was sent out can be reported,
      and once. */
  ghost predicate Enabled(b: Addr, h: History, e: Event) {
    match e
    case TakeIn(rs) =>
      DistinctNonces(rs) && forall r :: r in rs ==> r.sender != b && r.recipient != b && NewNumber(h.raws, r)
    case Report(txs) =>
      Distinct(txs) && forall t :: t in txs ==> h.issued[t] > 0 && t !in h.reported
  }

  function NextState(b: Addr, st: BrokerState, e: Event): BrokerState {
    match e
    case TakeIn(rs) => AddRaws(st, b, rs)
    case Report(txs) => CreateConfirm(st, b, txs)
  }

  /** The halves that an event makes the committee send. */
  function Sent(b: Addr, st: BrokerState, e: Event): seq<Tx> {
    match e
    case TakeIn(rs) => Tx1s(b, rs)
    case Report(txs) => Tx2s(b, Hits(st.pool1, txs))
  }

  function NextHistory(b: Addr, st: BrokerState, h: History, e: Event): History {
    History(if e.TakeIn? then h.raws + (set r | r in e.rs) else h.raws,
            h.issued + multiset(Sent(b, st, e)),
            if e.Report? then h.reported + (set t | t in e.txs) else h.reported)
  }

  ghost predicate Run(b: Addr, st: BrokerState, h: History, es: seq<Event>, st': BrokerState, h': History)
    decreases |es|
  {
    if es == [] then st == st' && h == h' else
      Enabled(b, h, es[0]) && Run(b, NextState(b, st, es[0]), NextHistory(b, st, h, es[0]), es[1..], st', h')
  }

  lemma StepOk(b: Addr, st: BrokerState, h: History, e: Event)
    requires Ok(b, st, h) && Enabled(b, h, e)
    ensures Ok(b, NextState(b, st, e), NextHistory(b, st, h, e))
  {
    hide Ok, AddRaws, CreateConfirm, AfterReport, TakenInAll, Tx1s, Tx2s, Hits, Distinct, DistinctNonces;
    match e
    case TakeIn(rs) =>
      AddRawsOk(b, st, h, rs);
      assert TakenInAll(h, b, rs).raws == NextHistory(b, st, h, e).raws;
    case Report(txs) =>
      ReportOk(b, st, h, txs);
      ReportedExactly(b, st, h, txs);
  }

  lemma {:induction false} RunOk(b: Addr, st: BrokerState, h: History, es: seq<Event>, st': BrokerState, h': History)
    requires Ok(b, st, h) && Run(b, st, h, es, st', h')
    ensures Ok(b, st', h')
    decreases |es|
  {
    hide Ok, Enabled, NextState, NextHistory;
    if es != [] {
      StepOk(b, st, h, es[0]);
      RunOk(b, NextState(b, st, es[0]), NextHistory(b, st, h, es[0]), es[1..], st', h');
    }
  }

  /** In every run, every raw transfer has its first half sent once, its second half sent once after the
      first was reported and not before, both for the same value, and an entry that is empty, the first half,
      or both halves in that order. */
  lemma EveryRunInOrder(b: Addr, es: seq<Event>, st: BrokerState, h: History, r: Tx)
    requires Run(b, BrokerState(map[], map[], {}, map[]), History({}, multiset{}, {}), es, st, h) && r in h.raws
    ensures h.issued[Tx1(b, r)] == 1
    ensures h.issued[Tx2(b, r)] == if Tx1(b, r) in h.reported then 1 else 0
    ensures Tx2(b, r) in h.reported ==> Tx1(b, r) in h.reported
    ensures EntryOf(st.entries, r) == Stage(b, h, r)
  {
    var st0, h0 := BrokerState(map[], map[], {}, map[]), History({}, multiset{}, {});
    assert Ok(b, st0, h0);
    hide Ok, Run;
    RunOk(b, st0, h0, es, st, h);
    Lifecycle(b, st, h, r);
  }
}
