/** The broker committee as the program runs it (supervisor/committee/committee_broker.go, broker/broker.go),
    proved against BrokerLifecycle. */
module BrokerCommittee {
  import opened Placement
  import opened BrokerLifecycle

  // ---------------------------------------------------------------- the fields, one loop at a time

  function Put1s(pool: Pool, b: Addr, rs: seq<Tx>): Pool {
    if rs == [] then pool else Put1s(pool, b, rs[..|rs| - 1])[Tx1(b, rs[|rs| - 1]) := rs[|rs| - 1]]
  }

  function Put2s(pool: Pool, b: Addr, rs: seq<Tx>): Pool {
    if rs == [] then pool else Put2s(pool, b, rs[..|rs| - 1])[Tx2(b, rs[|rs| - 1]) := rs[|rs| - 1]]
  }

  function Log1s(entries: Entries, b: Addr, rs: seq<Tx>): Entries {
    if rs == [] then entries else Log(Log1s(entries, b, rs[..|rs| - 1]), rs[|rs| - 1], Tx1(b, rs[|rs| - 1]))
  }

  function Log2s(entries: Entries, b: Addr, rs: seq<Tx>): Entries {
    if rs == [] then entries else Log(Log2s(entries, b, rs[..|rs| - 1]), rs[|rs| - 1], Tx2(b, rs[|rs| - 1]))
  }

  /** Those whose raw message is known. */
  function Present(rawMegs: set<Tx>, rs: seq<Tx>): seq<Tx> {
    if rs == [] then [] else
      Present(rawMegs, rs[..|rs| - 1]) + if rs[|rs| - 1] in rawMegs then [rs[|rs| - 1]] else []
  }

  lemma {:induction false} AddRawsFields(st: BrokerState, b: Addr, rs: seq<Tx>)
    ensures AddRaws(st, b, rs) == st.(rawMegs := st.rawMegs + (set r | r in rs), pool1 := Put1s(st.pool1, b, rs))
  {
    if rs != [] {
      AddRawsFields(st, b, rs[..|rs| - 1]);
      assert rs == rs[..|rs| - 1] + [rs[|rs| - 1]];
    }
  }

  lemma {:induction false} Confirm1sFields(st: BrokerState, b: Addr, rs: seq<Tx>)
    ensures Confirm1s(st, b, rs)
         == st.(entries := Log1s(st.entries, b, Present(st.rawMegs, rs)), pool2 := Put2s(st.pool2, b, Present(st.rawMegs, rs)))
  {
    if rs != [] {
      var init, r := rs[..|rs| - 1], rs[|rs| - 1];
      Confirm1sFields(st, b, init);
      var p := Present(st.rawMegs, init);
      assert p + [] == p && (p + [r])[..|p|] == p;
      hide Log, Tx1, Tx2;
    }
  }

  lemma {:induction false} Confirm2sFields(st: BrokerState, b: Addr, rs: seq<Tx>)
    ensures Confirm2s(st, b, rs) == st.(entries := Log2s(st.entries, b, rs))
  {
    if rs != [] {
      Confirm2sFields(st, b, rs[..|rs| - 1]);
      hide Log, Tx2;
    }
  }

  /** A transfer between two shards with no broker at either end. */
  predicate IsRaw(addr2Shard: Addr -> int, brokers: seq<Addr>, tx: Tx) {
    addr2Shard(tx.recipient) != addr2Shard(tx.sender) && tx.recipient !in brokers && tx.sender !in brokers
  }

  function Raws(addr2Shard: Addr -> int, brokers: seq<Addr>, txs: seq<Tx>): seq<Tx> {
    if txs == [] then [] else
      Raws(addr2Shard, brokers, txs[..|txs| - 1])
      + if IsRaw(addr2Shard, brokers, txs[|txs| - 1]) then [txs[|txs| - 1]] else []
  }

  function Direct(addr2Shard: Addr -> int, brokers: seq<Addr>, txs: seq<Tx>): seq<Tx> {
    if txs == [] then [] else
      Direct(addr2Shard, brokers, txs[..|txs| - 1])
      + if IsRaw(addr2Shard, brokers, txs[|txs| - 1]) then [] else [txs[|txs| - 1]]
  }

  lemma {:induction false} RawsAre(addr2Shard: Addr -> int, brokers: seq<Addr>, txs: seq<Tx>)
    requires DistinctNonces(txs)
    ensures DistinctNonces(Raws(addr2Shard, brokers, txs))
    ensures forall tx :: tx in Raws(addr2Shard, brokers, txs) <==> tx in txs && IsRaw(addr2Shard, brokers, tx)
    ensures forall tx :: tx in Direct(addr2Shard, brokers, txs) <==> tx in txs && !IsRaw(addr2Shard, brokers, tx)
    decreases |txs|
  {
    if txs != [] {
      var init, tx := txs[..|txs| - 1], txs[|txs| - 1];
      RawsAre(addr2Shard, brokers, init);
      assert txs == init + [tx];
      hide IsRaw;
      forall r | r in Raws(addr2Shard, brokers, init) ensures r.nonce != tx.nonce {
        assert r in init;
      }
    }
  }

  // ---------------------------------------------------------------- the committee

  class BrokerCommitteeMod {
    const Addr2Shard: Addr -> int
    const BrokerAddress: seq<Addr>
    var brokerConfirm1Pool: Pool
    var brokerConfirm2Pool: Pool
    var BrokerRawMegs: set<Tx>
    var RawTx2BrokerTx: Entries
    ghost var hist: History

    constructor (addr2Shard: Addr -> int, brokers: seq<Addr>)
      requires brokers != []
      ensures Valid() && hist == History({}, multiset{}, {})
      ensures Addr2Shard == addr2Shard && BrokerAddress == brokers
    {
      Addr2Shard, BrokerAddress := addr2Shard, brokers;
      brokerConfirm1Pool, brokerConfirm2Pool, BrokerRawMegs, RawTx2BrokerTx := map[], map[], {}, map[];
      hist := History({}, multiset{}, {});
    }

    ghost function State(): BrokerState
      reads this
    {
      BrokerState(brokerConfirm1Pool, brokerConfirm2Pool, BrokerRawMegs, RawTx2BrokerTx)
    }

    /** Every raw transfer taken in is where its reports have brought it. */
    ghost predicate Valid()
      reads this
    {
      BrokerAddress != [] && Ok(BrokerAddress[0], State(), hist)
    }

    method IsBroker(address: Addr) returns (yes: bool)
      ensures yes <==> address in BrokerAddress
    {
      for i := 0 to |BrokerAddress|
        invariant address !in BrokerAddress[..i]
      {
        if BrokerAddress[i] == address {
          return true;
        }
        assert BrokerAddress[..i + 1] == BrokerAddress[..i] + [BrokerAddress[i]];
      }
      assert BrokerAddress[..|BrokerAddress|] == BrokerAddress;
      yes := false;
    }

    /** Sort a batch: what needs no broker is sent as it is, for the rest the first halves are sent. */
    method DealTxByBroker(txs: seq<Tx>) returns (itxs: seq<Tx>, sent: seq<Tx>)
      requires Valid() && DistinctNonces(txs) && forall tx :: tx in txs ==> NewNumber(hist.raws, tx)
      modifies this
      ensures Valid() && hist.reported == old(hist.reported)
      ensures itxs == Direct(Addr2Shard, BrokerAddress, txs)
      ensures sent == Tx1s(BrokerAddress[0], Raws(Addr2Shard, BrokerAddress, txs))
      ensures forall r :: r in hist.raws <==> r in old(hist.raws) || (r in txs && IsRaw(Addr2Shard, BrokerAddress, r))
      ensures forall tx :: tx in itxs <==> tx in txs && (Addr2Shard(tx.sender) == Addr2Shard(tx.recipient)
                                                         || tx.sender in BrokerAddress || tx.recipient in BrokerAddress)
      ensures forall t :: t in sent <==> exists r :: r in txs && r !in itxs && t == Tx(r.sender, BrokerAddress[0], r.value, r.nonce)
      ensures hist.issued == old(hist.issued) + multiset(sent)
    {
      hide Ok, IsRaw, AddRaws, DistinctNonces, NewNumber;
      ghost var st, b := State(), BrokerAddress[0];
      var raws;
      itxs, raws := SortByBroker(txs);
      sent := HandleBrokerRawMag(raws);
      RawsReady(Addr2Shard, BrokerAddress, txs, hist.raws);
      FirstHalvesOf(Addr2Shard, BrokerAddress, txs);
      AddRawsOk(b, st, hist, raws);
      hist := TakenInAll(hist, b, raws);
    }

    method SortByBroker(txs: seq<Tx>) returns (itxs: seq<Tx>, raws: seq<Tx>)
      ensures itxs == Direct(Addr2Shard, BrokerAddress, txs) && raws == Raws(Addr2Shard, BrokerAddress, txs)
    {
      itxs, raws := [], [];
      assert txs[..0] == [];
      for i := 0 to |txs|
        invariant itxs == Direct(Addr2Shard, BrokerAddress, txs[..i]) && raws == Raws(Addr2Shard, BrokerAddress, txs[..i])
      {
        assert txs[..i + 1][..i] == txs[..i];
        var tx := txs[i];
        var to := IsBroker(tx.recipient);
        var from := IsBroker(tx.sender);
        if Addr2Shard(tx.recipient) != Addr2Shard(tx.sender) && !to && !from {
          raws := raws + [tx];
        } else {
          itxs := itxs + [tx];
        }
      }
      assert txs[..|txs|] == txs;
    }

    method HandleBrokerRawMag(raws: seq<Tx>) returns (sent: seq<Tx>)
      requires BrokerAddress != []
      modifies this`BrokerRawMegs, this`brokerConfirm1Pool
      ensures State() == AddRaws(old(State()), BrokerAddress[0], raws)
      ensures sent == Tx1s(BrokerAddress[0], raws)
    {
      ghost var st := State();
      assert raws[..0] == [];
      for i := 0 to |raws|
        invariant BrokerRawMegs == st.rawMegs + set r | r in raws[..i]
        invariant brokerConfirm1Pool == st.pool1
      {
        assert raws[..i + 1] == raws[..i] + [raws[i]];
        BrokerRawMegs := BrokerRawMegs + {raws[i]};
      }
      assert raws[..|raws|] == raws;
      sent := HandleBrokerType1Mes(raws);
      AddRawsFields(st, BrokerAddress[0], raws);
    }

    method HandleBrokerType1Mes(raws: seq<Tx>) returns (tx1s: seq<Tx>)
      requires BrokerAddress != []
      modifies this`brokerConfirm1Pool
      ensures brokerConfirm1Pool == Put1s(old(brokerConfirm1Pool), BrokerAddress[0], raws)
      ensures tx1s == Tx1s(BrokerAddress[0], raws)
    {
      tx1s := [];
      assert raws[..0] == [];
      for i := 0 to |raws|
        invariant brokerConfirm1Pool == Put1s(old(brokerConfirm1Pool), BrokerAddress[0], raws[..i])
        invariant tx1s == Tx1s(BrokerAddress[0], raws[..i])
      {
        assert raws[..i + 1][..i] == raws[..i];
        var ctx := raws[i];
        var tx1 := Tx(ctx.sender, BrokerAddress[0], ctx.value, ctx.nonce);
        tx1s := tx1s + [tx1];
        brokerConfirm1Pool := brokerConfirm1Pool[tx1 := ctx];
      }
      assert raws[..|raws|] == raws;
    }

    /** createConfirm on a report of halves, each on chain and reported for the first time. */
    method CreateConfirm(txs: seq<Tx>) returns (sent: seq<Tx>)
      requires Valid() && Distinct(txs) && forall t :: t in txs ==> hist.issued[t] > 0 && t !in hist.reported
      modifies this
      ensures Valid() && hist.raws == old(hist.raws)
      ensures hist.reported == old(hist.reported) + set t | t in txs
      ensures hist.issued == old(hist.issued) + multiset(sent)
      ensures sent == Tx2s(BrokerAddress[0], Hits(old(brokerConfirm1Pool), txs))
      ensures forall t :: t in sent <==> exists r :: r in hist.raws && Tx(r.sender, BrokerAddress[0], r.value, r.nonce) in txs
                                                     && t == Tx(BrokerAddress[0], r.recipient, r.value, r.nonce)
    {
      hide Ok, BrokerLifecycle.CreateConfirm, AfterReport, Distinct;
      ghost var st, b := State(), BrokerAddress[0];
      var confirm1s := Lookups(brokerConfirm1Pool, txs);
      var confirm2s := Lookups(brokerConfirm2Pool, txs);
      sent := Confirm(confirm1s, confirm2s);
      ReportOk(b, st, hist, txs);
      ReportedExactly(b, st, hist, txs);
      AllKnown(b, st, hist, txs);
      ConfirmIs(st, b, txs);
      SecondHalvesOf(b, st, hist, txs);
      hist := AfterReport(st, hist, b, txs);
    }

    method Lookups(pool: Pool, txs: seq<Tx>) returns (raws: seq<Tx>)
      ensures raws == Hits(pool, txs)
    {
      raws := [];
      assert txs[..0] == [];
      for i := 0 to |txs|
        invariant raws == Hits(pool, txs[..i])
      {
        assert txs[..i + 1][..i] == txs[..i];
        if txs[i] in pool {
          raws := raws + [pool[txs[i]]];
        }
      }
      assert txs[..|txs|] == txs;
    }

    method Confirm(confirm1s: seq<Tx>, confirm2s: seq<Tx>) returns (sent: seq<Tx>)
      requires BrokerAddress != []
      modifies this`RawTx2BrokerTx, this`brokerConfirm2Pool
      ensures State() == Confirm2s(Confirm1s(old(State()), BrokerAddress[0], confirm1s), BrokerAddress[0], confirm2s)
      ensures sent == Tx2s(BrokerAddress[0], Present(BrokerRawMegs, confirm1s))
    {
      ghost var b := BrokerAddress[0];
      sent := [];
      if |confirm1s| != 0 {
        sent := HandleTx1ConfirmMag(confirm1s);
      }
      ghost var mid := State();
      if |confirm2s| != 0 {
        HandleTx2ConfirmMag(confirm2s);
      }
      Confirm2sFields(mid, b, confirm2s);
    }

    method HandleTx1ConfirmMag(confirms: seq<Tx>) returns (sent: seq<Tx>)
      requires BrokerAddress != []
      modifies this`RawTx2BrokerTx, this`brokerConfirm2Pool
      ensures State() == Confirm1s(old(State()), BrokerAddress[0], confirms)
      ensures sent == Tx2s(BrokerAddress[0], Present(BrokerRawMegs, confirms))
      ensures forall t :: t in sent <==> exists r :: r in confirms && r in BrokerRawMegs
                                                     && t == Tx(BrokerAddress[0], r.recipient, r.value, r.nonce)
    {
      ghost var st, b := State(), BrokerAddress[0];
      var known := [];
      assert confirms[..0] == [];
      for i := 0 to |confirms|
        invariant known == Present(BrokerRawMegs, confirms[..i])
        invariant RawTx2BrokerTx == Log1s(st.entries, b, known) && brokerConfirm2Pool == st.pool2
      {
        assert confirms[..i + 1][..i] == confirms[..i];
        var raw := confirms[i];
        if raw in BrokerRawMegs {
          assert (known + [raw])[..|known|] == known;
          RawTx2BrokerTx := Log(RawTx2BrokerTx, raw, Tx1(BrokerAddress[0], raw));
          known := known + [raw];
        }
      }
      assert confirms[..|confirms|] == confirms;
      sent := HandleBrokerType2Mes(known);
      Confirm1sFields(st, b, confirms);
      SecondHalvesAre(b, BrokerRawMegs, confirms);
    }

    method HandleBrokerType2Mes(raws: seq<Tx>) returns (tx2s: seq<Tx>)
      requires BrokerAddress != []
      modifies this`brokerConfirm2Pool
      ensures brokerConfirm2Pool == Put2s(old(brokerConfirm2Pool), BrokerAddress[0], raws)
      ensures tx2s == Tx2s(BrokerAddress[0], raws)
    {
      tx2s := [];
      assert raws[..0] == [];
      for i := 0 to |raws|
        invariant brokerConfirm2Pool == Put2s(old(brokerConfirm2Pool), BrokerAddress[0], raws[..i])
        invariant tx2s == Tx2s(BrokerAddress[0], raws[..i])
      {
        assert raws[..i + 1][..i] == raws[..i];
        var ctx := raws[i];
        var tx2 := Tx(BrokerAddress[0], ctx.recipient, ctx.value, ctx.nonce);
        tx2s := tx2s + [tx2];
        brokerConfirm2Pool := brokerConfirm2Pool[tx2 := ctx];
      }
      assert raws[..|raws|] == raws;
    }

    method HandleTx2ConfirmMag(confirms: seq<Tx>)
      requires BrokerAddress != []
      modifies this`RawTx2BrokerTx
      ensures RawTx2BrokerTx == Log2s(old(RawTx2BrokerTx), BrokerAddress[0], confirms)
    {
      assert confirms[..0] == [];
      for i := 0 to |confirms|
        invariant RawTx2BrokerTx == Log2s(old(RawTx2BrokerTx), BrokerAddress[0], confirms[..i])
      {
        assert confirms[..i + 1][..i] == confirms[..i];
        RawTx2BrokerTx := Log(RawTx2BrokerTx, confirms[i], Tx2(BrokerAddress[0], confirms[i]));
      }
      assert confirms[..|confirms|] == confirms;
    }
  }

  lemma RawsReady(addr2Shard: Addr -> int, brokers: seq<Addr>, txs: seq<Tx>, taken: set<Tx>)
    requires brokers != [] && DistinctNonces(txs) && forall tx :: tx in txs ==> NewNumber(taken, tx)
    ensures var raws := Raws(addr2Shard, brokers, txs);
      && DistinctNonces(raws)
      && (forall r :: r in raws ==> r.sender != brokers[0] && r.recipient != brokers[0] && NewNumber(taken, r))
      && (forall r :: r in raws <==> r in txs && IsRaw(addr2Shard, brokers, r))
  {
    RawsAre(addr2Shard, brokers, txs);
    hide NewNumber, DistinctNonces, Raws;
  }

  /** Whom the first halves of a batch pay. */
  lemma FirstHalvesOf(addr2Shard: Addr -> int, brokers: seq<Addr>, txs: seq<Tx>)
    requires brokers != [] && DistinctNonces(txs)
    ensures forall tx :: tx in Direct(addr2Shard, brokers, txs) <==>
              tx in txs && (addr2Shard(tx.sender) == addr2Shard(tx.recipient) || tx.sender in brokers || tx.recipient in brokers)
    ensures forall t :: t in Tx1s(brokers[0], Raws(addr2Shard, brokers, txs)) <==>
              exists r :: r in txs && r !in Direct(addr2Shard, brokers, txs) && t == Tx(r.sender, brokers[0], r.value, r.nonce)
  {
    RawsAre(addr2Shard, brokers, txs);
    HalvesAre(brokers[0], Raws(addr2Shard, brokers, txs));
    hide DistinctNonces, Raws, Direct, Tx1s, Tx2s;
  }

  lemma {:induction false} PresentAre(rawMegs: set<Tx>, rs: seq<Tx>)
    ensures forall r :: r in Present(rawMegs, rs) <==> r in rs && r in rawMegs
  {
    if rs != [] {
      PresentAre(rawMegs, rs[..|rs| - 1]);
      assert rs == rs[..|rs| - 1] + [rs[|rs| - 1]];
    }
  }

  lemma SortOne(addr2Shard: Addr -> int, brokers: seq<Addr>, txs: seq<Tx>, tx: Tx)
    ensures var raw := IsRaw(addr2Shard, brokers, tx);
      && Direct(addr2Shard, brokers, txs + [tx]) == Direct(addr2Shard, brokers, txs) + (if raw then [] else [tx])
      && Raws(addr2Shard, brokers, txs + [tx]) == Raws(addr2Shard, brokers, txs) + (if raw then [tx] else [])
  {
    hide IsRaw;
    assert (txs + [tx])[..|txs|] == txs;
  }

  lemma SortNone(addr2Shard: Addr -> int, brokers: seq<Addr>)
    ensures Direct(addr2Shard, brokers, []) == [] && Raws(addr2Shard, brokers, []) == []
  {
  }

  /** Sorting keeps the order on both sides. */
  lemma {:induction false} SortKeepsOrder(addr2Shard: Addr -> int, brokers: seq<Addr>, txs: seq<Tx>, more: seq<Tx>)
    ensures Direct(addr2Shard, brokers, txs + more) == Direct(addr2Shard, brokers, txs) + Direct(addr2Shard, brokers, more)
    ensures Raws(addr2Shard, brokers, txs + more) == Raws(addr2Shard, brokers, txs) + Raws(addr2Shard, brokers, more)
    decreases |more|
  {
    hide IsRaw, Direct, Raws;
    if more == [] {
      SortNone(addr2Shard, brokers);
      assert txs + more == txs;
    } else {
      var init, tx := more[..|more| - 1], more[|more| - 1];
      SortKeepsOrder(addr2Shard, brokers, txs, init);
      SortOne(addr2Shard, brokers, txs + init, tx);
      SortOne(addr2Shard, brokers, init, tx);
      assert txs + more == txs + init + [tx] && more == init + [tx];
    }
  }

  /** Sorting loses nothing. */
  lemma {:induction false} SortIsPermutation(addr2Shard: Addr -> int, brokers: seq<Addr>, txs: seq<Tx>)
    ensures multiset(Direct(addr2Shard, brokers, txs)) + multiset(Raws(addr2Shard, brokers, txs)) == multiset(txs)
    decreases |txs|
  {
    hide IsRaw, Direct, Raws;
    if txs == [] {
      SortNone(addr2Shard, brokers);
    } else {
      var init, tx := txs[..|txs| - 1], txs[|txs| - 1];
      SortIsPermutation(addr2Shard, brokers, init);
      SortOne(addr2Shard, brokers, init, tx);
      assert txs == init + [tx];
    }
  }

  /** The halves, one for each raw transfer and in the same order. */
  lemma {:induction false} HalvesInOrder(b: Addr, rs: seq<Tx>)
    ensures |Tx1s(b, rs)| == |Tx2s(b, rs)| == |rs|
    ensures forall k :: 0 <= k < |rs| ==> Tx1s(b, rs)[k] == Tx(rs[k].sender, b, rs[k].value, rs[k].nonce)
    ensures forall k :: 0 <= k < |rs| ==> Tx2s(b, rs)[k] == Tx(b, rs[k].recipient, rs[k].value, rs[k].nonce)
  {
    if rs != [] {
      HalvesInOrder(b, rs[..|rs| - 1]);
    }
  }

  /** Whom the second halves of confirmed transfers pay. */
  lemma SecondHalvesAre(b: Addr, rawMegs: set<Tx>, confirms: seq<Tx>)
    ensures forall t :: t in Tx2s(b, Present(rawMegs, confirms)) <==>
              exists r :: r in confirms && r in rawMegs && t == Tx(b, r.recipient, r.value, r.nonce)
  {
    PresentAre(rawMegs, confirms);
    HalvesAre(b, Present(rawMegs, confirms));
    hide Present, Tx1s, Tx2s;
  }

  /** The second halves that a report makes due. */
  lemma SecondHalvesOf(b: Addr, st: BrokerState, h: History, txs: seq<Tx>)
    requires Ok(b, st, h)
    ensures forall t :: t in Tx2s(b, Hits(st.pool1, txs)) <==>
              exists r :: r in h.raws && Tx(r.sender, b, r.value, r.nonce) in txs && t == Tx(b, r.recipient, r.value, r.nonce)
  {
    HitsAre(st.pool1, txs);
    HalvesAre(b, Hits(st.pool1, txs));
    RawsHit(b, st, h, txs);
    hide Ok, Hits, Tx1s, Tx2s;
  }

  lemma RawsHit(b: Addr, st: BrokerState, h: History, txs: seq<Tx>)
    requires Ok(b, st, h)
    ensures forall r :: r in Hits(st.pool1, txs) <==> r in h.raws && Tx1(b, r) in txs
  {
    HitsAre(st.pool1, txs);
    hide Hits, Back2, Full2, IssuedOk, EntriesOk, Numbered, Outsiders;
    forall r | r in h.raws && Tx1(b, r) in txs ensures r in Hits(st.pool1, txs) {
      SameNumber(h.raws, st.pool1[Tx1(b, r)], r);
    }
  }

  /** Every hit is a raw transfer that was taken in. */
  lemma AllKnown(b: Addr, st: BrokerState, h: History, txs: seq<Tx>)
    requires Ok(b, st, h)
    ensures Present(st.rawMegs, Hits(st.pool1, txs)) == Hits(st.pool1, txs)
  {
    HitsAre(st.pool1, txs);
    PresentAll(st.rawMegs, Hits(st.pool1, txs));
  }

  lemma {:induction false} PresentAll(rawMegs: set<Tx>, rs: seq<Tx>)
    requires forall r :: r in rs ==> r in rawMegs
    ensures Present(rawMegs, rs) == rs
  {
    if rs != [] {
      PresentAll(rawMegs, rs[..|rs| - 1]);
    }
  }

  lemma ConfirmIs(st: BrokerState, b: Addr, txs: seq<Tx>)
    ensures BrokerLifecycle.CreateConfirm(st, b, txs) == Confirm2s(Confirm1s(st, b, Hits(st.pool1, txs)), b, Hits(st.pool2, txs))
  {
  }
}
