/** UTXO mode at a shard's main node: injected transfers become UTXO transactions, backed by an index of
    unspent outputs per owner (chain/utxo_set.go, chain/blockchain.go, core/utxo_txpool.go,
    consensus_shard/pbft_all/messageHandle.go). */
module UtxoWallet {
  import opened UtxoLedger
  import opened UtxoSelection

  // ---------------------------------------------------------------- adding outputs

  predicate MakesAt(tx: UTXOTransaction, n: nat, o: PubKeyHash, op: Outpoint)
    requires n <= |Vout(tx)|
  {
    op.txId == tx && 0 <= op.index < n && Vout(tx)[op.index].pubKeyHash == o
  }

  /** `next` is `trie` after the first `n` outputs of `tx` were written. */
  ghost predicate Written(trie: Trie, next: Trie, tx: UTXOTransaction, n: nat)
    requires n <= |Vout(tx)|
  {
    forall o, op, v :: Entry(next, o, op, v) <==>
      if MakesAt(tx, n, o, op) then Vout(tx)[op.index].value == v else Entry(trie, o, op, v)
  }

  /** No output of `tx` is stored. */
  ghost predicate Unused(trie: Trie, tx: UTXOTransaction) {
    forall o, op, v :: Entry(trie, o, op, v) ==> op.txId != tx
  }

  function AccountOf(trie: Trie, owner: PubKeyHash): UTXOAccountState {
    if owner in trie then trie[owner] else UTXOAccountState(0, map[])
  }

  /** One output more in an account. */
  function Deposited(s: UTXOAccountState, op: Outpoint, v: nat): UTXOAccountState {
    var outputs: map<int, nat> := OutsOf(s.utxos, op.txId);
    UTXOAccountState(s.balance + v, s.utxos[op.txId := outputs[op.index := v]])
  }

  lemma DepositHas(s: UTXOAccountState, op: Outpoint, v: nat)
    ensures forall p, w :: Has(Deposited(s, op, v).utxos, p, w) <==> if p == op then w == v else Has(s.utxos, p, w)
  {
  }

  lemma DepositOk(s: UTXOAccountState, op: Outpoint, v: nat)
    requires AccountOk(s) && !Stored(s.utxos, op)
    ensures AccountOk(Deposited(s, op, v)) && Total(Deposited(s, op, v).utxos) == Total(s.utxos) + v
  {
    var before: map<int, nat> := OutsOf(s.utxos, op.txId);
    TotalSet(s.utxos, op.txId, before[op.index := v]);
    SumSet(before, op.index, v);
    assert before - {op.index} == before;
    if op.txId in s.utxos {
      TotalOut(s.utxos, op.txId);
    } else {
      assert s.utxos - {op.txId} == s.utxos;
    }
  }

  lemma NewAccountOk()
    ensures AccountOk(UTXOAccountState(0, map[])) && Total(map[]) == 0
  {
    EmptyTotal(map[]);
  }

  /** The loop body of AddUTXO2StatusTrie. */
  method AddOutput(st: Trie, op: Outpoint, out: TxOut) returns (next: Trie)
    ensures forall o, p, v :: Entry(next, o, p, v) <==>
              if o == out.pubKeyHash && p == op then v == out.value else Entry(st, o, p, v)
    ensures AccountsOk(st) && !Stored(AccountOf(st, out.pubKeyHash).utxos, op) ==>
              AccountsOk(next) && Worth(next) == Worth(st) + out.value
  {
    var s := if out.pubKeyHash in st then st[out.pubKeyHash] else UTXOAccountState(0, map[]);
    ghost var was := s;
    if op.txId !in s.utxos {
      s := s.(utxos := s.utxos[op.txId := map[op.index := out.value]]);
    } else {
      var outputs: map<int, nat> := s.utxos[op.txId];
      s := s.(utxos := s.utxos[op.txId := outputs[op.index := out.value]]);
    }
    s := s.(balance := s.balance + out.value);
    assert s == Deposited(was, op, out.value);
    DepositHas(was, op, out.value);
    next := st[out.pubKeyHash := s];
    DepositStored(st, op, out);
  }

  lemma DepositStored(st: Trie, op: Outpoint, out: TxOut)
    ensures AccountsOk(st) && !Stored(AccountOf(st, out.pubKeyHash).utxos, op) ==>
      var next := st[out.pubKeyHash := Deposited(AccountOf(st, out.pubKeyHash), op, out.value)];
      AccountsOk(next) && Worth(next) == Worth(st) + out.value
  {
    var s := AccountOf(st, out.pubKeyHash);
    if AccountsOk(st) && !Stored(s.utxos, op) {
      NewAccountOk();
      assert AccountOk(s);
      DepositOk(s, op, out.value);
      WorthSet(st, out.pubKeyHash, Deposited(s, op, out.value));
    }
  }

  // ---------------------------------------------------------------- building inputs

  function InSum(u: Utxos, vin: seq<TxIn>): nat {
    if vin == [] then 0 else
      var i := vin[|vin| - 1];
      InSum(u, vin[..|vin| - 1]) + ValueIn(OutsOf(u, i.prevTxId), i.index)
  }

  lemma {:induction false} InSumIs(u: Utxos, ledger: Ledger, vin: seq<TxIn>)
    requires forall i :: i in vin ==> ValueAt(ledger, Ref(i)) == ValueIn(OutsOf(u, i.prevTxId), i.index)
    ensures InValue(ledger, vin) == InSum(u, vin)
  {
    if vin != [] {
      InSumIs(u, ledger, vin[..|vin| - 1]);
    }
  }

  ghost predicate SignedFor(vin: seq<TxIn>, from: string) {
    forall i :: i in vin ==> i.pubKey == from
  }

  /** The inputs refer to exactly the selected outputs, once each. */
  ghost predicate Refers(vin: seq<TxIn>, outs: Chosen, from: string) {
    && SignedFor(vin, from) && DistinctRefs(vin)
    && (forall i :: i in vin ==> Listed(outs, Ref(i)))
    && (forall op :: Listed(outs, op) ==> TxIn(op.txId, op.index, from) in vin)
  }

  /** The inner loop: inputs for the outputs of one transaction. */
  method AppendInputs(before: seq<TxIn>, txid: TxId, ids: seq<int>, from: string, ghost u: Utxos) returns (vin: seq<TxIn>)
    requires Distinct(ids) && SignedFor(before, from) && DistinctRefs(before) && forall i :: i in before ==> i.prevTxId != txid
    ensures SignedFor(vin, from) && DistinctRefs(vin)
    ensures forall i :: i in vin <==> i in before || (i.pubKey == from && i.prevTxId == txid && i.index in ids)
    ensures InSum(u, vin) == InSum(u, before) + IdsValue(OutsOf(u, txid), ids)
  {
    vin := before;
    assert ids[..0] == [];
    for k := 0 to |ids|
      invariant SignedFor(vin, from) && DistinctRefs(vin)
      invariant forall i :: i in vin <==> i in before || (i.pubKey == from && i.prevTxId == txid && i.index in ids[..k])
      invariant InSum(u, vin) == InSum(u, before) + IdsValue(OutsOf(u, txid), ids[..k])
    {
      assert ids[..k + 1] == ids[..k] + [ids[k]] && ids[k] !in ids[..k];
      AppendOne(u, vin, TxIn(txid, ids[k], from), ids[..k]);
      vin := vin + [TxIn(txid, ids[k], from)];
    }
    assert ids[..|ids|] == ids;
  }

  lemma AppendOne(u: Utxos, vin: seq<TxIn>, i: TxIn, ids: seq<int>)
    ensures InSum(u, vin + [i]) == InSum(u, vin) + ValueIn(OutsOf(u, i.prevTxId), i.index)
    ensures IdsValue(OutsOf(u, i.prevTxId), ids + [i.index])
         == IdsValue(OutsOf(u, i.prevTxId), ids) + ValueIn(OutsOf(u, i.prevTxId), i.index)
  {
    assert (vin + [i])[..|vin|] == vin && (ids + [i.index])[..|ids|] == ids;
  }

  /** The inputs of a transaction from the selected outputs, in whatever order the map is read. */
  method BuildInputs(outs: Chosen, from: string, ghost u: Utxos) returns (vin: seq<TxIn>)
    requires forall t :: t in outs ==> Distinct(outs[t])
    ensures Refers(vin, outs, from) && InSum(u, vin) == ChosenValue(u, outs)
  {
    vin := [];
    var rest := outs;
    ChosenNone(u);
    NoInputs(u, from);
    hide Refers, ChosenValue, InSum, IdsValue, Distinct;
    ghost var done: Chosen := map[];
    while rest.Keys != {}
      invariant Halves(outs, rest, done)
      invariant Refers(vin, done, from) && InSum(u, vin) == ChosenValue(u, done)
      decreases |rest|
    {
      var txid :| txid in rest.Keys;
      ChosenOneMore(u, done, txid, outs[txid]);
      ghost var before := vin;
      ReferParts(vin, done, txid, from);
      vin := AppendInputs(vin, txid, outs[txid], from, u);
      ReferMore(before, vin, done, txid, outs[txid], from);
      rest, done := rest - {txid}, done[txid := outs[txid]];
    }
    AllDone(outs, rest, done);
  }

  /** `rest` is still to be read, `done` has been. */
  ghost predicate Halves(outs: Chosen, rest: Chosen, done: Chosen) {
    && (forall t :: t in rest ==> t in outs && rest[t] == outs[t] && t !in done)
    && (forall t :: t in done ==> t in outs && done[t] == outs[t])
    && (forall t :: t in outs ==> t in rest || t in done)
  }

  lemma AllDone(outs: Chosen, rest: Chosen, done: Chosen)
    requires Halves(outs, rest, done) && rest.Keys == {}
    ensures done == outs
  {
  }

  lemma NoInputs(u: Utxos, from: string)
    ensures Refers([], map[], from) && InSum(u, []) == 0
  {
  }

  lemma ReferParts(vin: seq<TxIn>, outs: Chosen, txid: TxId, from: string)
    requires Refers(vin, outs, from) && txid !in outs
    ensures SignedFor(vin, from) && DistinctRefs(vin) && forall i :: i in vin ==> i.prevTxId != txid
  {
  }

  lemma ReferMore(vin: seq<TxIn>, vin': seq<TxIn>, done: Chosen, txid: TxId, ids: seq<int>, from: string)
    requires Refers(vin, done, from) && txid !in done && SignedFor(vin', from) && DistinctRefs(vin')
    requires forall i :: i in vin' <==> i in vin || (i.pubKey == from && i.prevTxId == txid && i.index in ids)
    ensures Refers(vin', done[txid := ids], from)
  {
  }

  // ---------------------------------------------------------------- one transformation, as facts about values

  /** NewUTXOTransaction falls back to a coinbase: no account, too little on it, or nothing on it. */
  predicate NeedsCoinbase(trie: Trie, owner: PubKeyHash, amount: nat) {
    owner !in trie || trie[owner].balance < amount || trie[owner].balance == 0
  }

  /** The fall-back that forgets outputs: a transfer of nothing by an owner of nothing but worthless outputs,
      which selection removes before it gives up. */
  predicate Forgets(trie: Trie, owner: PubKeyHash, amount: nat) {
    owner in trie && amount == 0 && trie[owner].balance == 0 && trie[owner].utxos != map[]
  }

  /** What the selection does to the whole trie. */
  ghost predicate Selected(trie: Trie, next: Trie, owner: PubKeyHash, amount: nat, acc: int, outs: Chosen) {
    if owner !in trie then
      acc == -1 && outs == map[] && next == trie[owner := UTXOAccountState(0, map[])]
    else if trie[owner].balance < amount then
      acc == 0 && outs == map[] && next == trie
    else
      && owner in next && next == trie[owner := next[owner]]
      && SplitOff(trie[owner].utxos, next[owner].utxos, outs)
      && acc >= amount && acc == ChosenValue(trie[owner].utxos, outs)
      && next[owner].balance == trie[owner].balance - acc
      && (acc > amount || next[owner].utxos == map[])
      && (exists last :: JustEnough(trie[owner].utxos, outs, acc, amount, last))
      && (outs == map[] ==> trie[owner].utxos == map[])
  }

  /** Every outpoint that the selection lists. */
  ghost function Taken(outs: Chosen): set<Outpoint> {
    set t, i | t in outs && i in outs[t] :: Outpoint(t, i)
  }

  lemma TakenIs(outs: Chosen)
    ensures forall op :: op in Taken(outs) <==> Listed(outs, op)
  {
    forall op ensures op in Taken(outs) <==> Listed(outs, op) {
      if Listed(outs, op) {
        assert Outpoint(op.txId, op.index) == op;
      }
    }
  }

  lemma SelectedTakesOut(trie: Trie, next: Trie, owner: PubKeyHash, amount: nat, acc: int, outs: Chosen)
    requires Selected(trie, next, owner, amount, acc, outs)
    ensures TakenOut(trie, next, owner, Taken(outs))
    ensures forall op :: op in Taken(outs) ==> owner in trie && Stored(trie[owner].utxos, op)
  {
    TakenIs(outs);
    hide Has, Taken;
    forall o, op, v ensures Entry(next, o, op, v) <==> Entry(trie, o, op, v) && !(o == owner && op in Taken(outs)) {
      if owner !in trie {
        NothingHere(op, v);
      }
    }
  }

  lemma NothingHere(op: Outpoint, v: nat)
    ensures !Has(map[], op, v)
  {
  }

  /** The selection is worth something exactly if no coinbase is needed. */
  lemma SelectedWorth(trie: Trie, next: Trie, owner: PubKeyHash, amount: nat, acc: int, outs: Chosen)
    requires AccountsOk(trie) && AccountsOk(next) && Selected(trie, next, owner, amount, acc, outs)
    ensures (acc == -1 || acc == 0) <==> NeedsCoinbase(trie, owner, amount)
    ensures acc == -1 || acc >= 0
    ensures Worth(next) == Worth(trie) - if acc > 0 then acc else 0
    ensures acc > 0 ==> acc >= amount && outs != map[]
    ensures (acc == -1 || acc == 0) && outs != map[] <==> Forgets(trie, owner, amount)
  {
    hide SplitOff, JustEnough, ChosenValue, Total, Worth;
    if owner !in trie {
      NewAccountOk();
      WorthSet(trie, owner, UTXOAccountState(0, map[]));
    } else if trie[owner].balance >= amount {
      assert AccountOk(trie[owner]) && AccountOk(next[owner]);
      WorthSet(trie, owner, next[owner]);
      EmptyTotal(next[owner].utxos);
      EmptyTotal(trie[owner].utxos);
      ChosenNone(trie[owner].utxos);
      if outs != map[] && trie[owner].utxos == map[] {
        NothingToList(trie, next, owner, outs);
      }
    }
  }

  lemma NothingToList(trie: Trie, next: Trie, owner: PubKeyHash, outs: Chosen)
    requires owner in trie && trie[owner].utxos == map[] && owner in next
    requires SplitOff(trie[owner].utxos, next[owner].utxos, outs)
    ensures outs == map[]
  {
    if outs != map[] {
      var t :| t in outs;
      assert Listed(outs, Outpoint(t, outs[t][0]));
    }
  }

  /** The outputs of a transfer: the payment, and the change if there is any. */
  function Payments(from: string, to: string, amount: nat, acc: nat): seq<TxOut> {
    [TxOut(amount, Sha(to))] + if acc > amount then [TxOut(acc - amount, Sha(from))] else []
  }

  lemma PaymentsValue(from: string, to: string, amount: nat, acc: nat)
    requires acc >= amount
    ensures OutValue(Payments(from, to, amount, acc)) == acc
  {
    var pay := [TxOut(amount, Sha(to))];
    assert pay[..0] == [];
    assert OutValue(pay) == amount;
    if acc > amount {
      assert (pay + [TxOut(acc - amount, Sha(from))])[..1] == pay;
    } else {
      assert pay + [] == pay;
    }
  }

  /** The ledger accepts a transfer of selected outputs. */
  lemma SelectionAccepted(txs: seq<UTXOTransaction>, ledger: Ledger, lost: Ledger, trie: Trie, from: string,
                          outs: Chosen, tx: UTXOTransaction)
    requires Refines(trie, lost, ledger) && Sha(from) in trie && outs != map[] && tx.Transfer?
    requires forall op :: Listed(outs, op) ==> Stored(trie[Sha(from)].utxos, op)
    requires forall t :: t in outs ==> outs[t] != []
    requires Refers(tx.vin, outs, from) && InSum(trie[Sha(from)].utxos, tx.vin) == OutValue(tx.vout)
    ensures Accepts(txs, ledger, tx) && Spent(tx) == Taken(outs)
  {
    TakenIs(outs);
    var t :| t in outs;
    assert Listed(outs, Outpoint(t, outs[t][0]));
    hide InSum, InValue, OutValue, Taken;
    forall i | i in tx.vin
      ensures Ref(i) in ledger && ledger[Ref(i)] == TxOut(ValueIn(OutsOf(trie[Sha(from)].utxos, i.prevTxId), i.index), Sha(from))
    {
      assert Listed(outs, Ref(i));
      assert Entry(trie, Sha(from), Ref(i), trie[Sha(from)].utxos[i.prevTxId][i.index]);
    }
    InSumIs(trie[Sha(from)].utxos, ledger, tx.vin);
    SpentIs(tx, outs, from);
  }

  lemma SpentIs(tx: UTXOTransaction, outs: Chosen, from: string)
    requires tx.Transfer? && Refers(tx.vin, outs, from)
    ensures Spent(tx) == Taken(outs)
  {
    TakenIs(outs);
    hide Taken;
    forall op ensures op in Spent(tx) <==> op in Taken(outs) {
      if Listed(outs, op) {
        assert Ref(TxIn(op.txId, op.index, from)) == op;
      }
    }
  }

  /** What a fresh coinbase provides is spent at once. */
  lemma CoinbaseAccepted(txs: seq<UTXOTransaction>, ledger: Ledger, from: string, amount: nat, nonce: int, tx: UTXOTransaction)
    requires forall t :: t in txs && t.Coinbase? ==> t.nonce != nonce
    requires tx.Transfer? && tx.vin == [TxIn(Coinbase(TxOut(amount, Sha(from)), nonce), 0, from)] && OutValue(tx.vout) == amount
    ensures var coinbase := Coinbase(TxOut(amount, Sha(from)), nonce);
      Accepts(txs, ledger, coinbase) && Accepts(txs + [coinbase], Update(ledger, coinbase), tx)
  {
    var coinbase := Coinbase(TxOut(amount, Sha(from)), nonce);
    var next := Update(ledger, coinbase);
    assert Outputs(coinbase)[Outpoint(coinbase, 0)] == TxOut(amount, Sha(from));
    assert next[Ref(tx.vin[0])] == TxOut(amount, Sha(from));
    assert tx.vin[..0] == [];
    assert InValue(next, tx.vin) == amount;
  }

  /** Ledger and trie move together when selected outputs are spent. */
  lemma TransferRefines(trie: Trie, next: Trie, last: Trie, lost: Ledger, ledger: Ledger, owner: PubKeyHash, tx: UTXOTransaction)
    requires Refines(trie, lost, ledger) && TakenOut(trie, next, owner, Spent(tx)) && Written(next, last, tx, |Vout(tx)|)
    requires forall op :: op in Spent(tx) ==> op in ledger && op !in lost && ledger[op].pubKeyHash == owner
    requires forall op :: op in ledger ==> op.txId != tx
    ensures Refines(last, lost, Update(ledger, tx))
  {
    var ledger' := Update(ledger, tx);
    hide Entry, Vin, Vout;
    forall o, op, v ensures Entry(last, o, op, v) <==> op in ledger' && op !in lost && ledger'[op] == TxOut(v, o) {
      assert Entry(next, o, op, v) <==> Entry(trie, o, op, v) && !(o == owner && op in Spent(tx));
    }
  }

  /** The outputs that a selection without result leaves behind. */
  ghost function Forgotten(ledger: Ledger, taken: set<Outpoint>): Ledger {
    map op | op in ledger && op in taken :: ledger[op]
  }

  lemma ForgetRefines(trie: Trie, next: Trie, lost: Ledger, ledger: Ledger, owner: PubKeyHash, taken: set<Outpoint>)
    requires Refines(trie, lost, ledger) && TakenOut(trie, next, owner, taken)
    requires forall op :: op in taken ==> op in ledger && ledger[op] == TxOut(0, owner)
    ensures Refines(next, lost + Forgotten(ledger, taken), ledger)
  {
    var lost' := lost + Forgotten(ledger, taken);
    hide Entry;
    forall o, op, v ensures Entry(next, o, op, v) <==> op in ledger && op !in lost' && ledger[op] == TxOut(v, o) {
      assert Entry(next, o, op, v) <==> Entry(trie, o, op, v) && !(o == owner && op in taken);
    }
  }

  /** A coinbase and the transfer that spends it add just that transfer's outputs. */
  lemma CoinbaseSpent(ledger: Ledger, coinbase: UTXOTransaction, tx: UTXOTransaction)
    requires coinbase.Coinbase? && Spent(tx) == {Outpoint(coinbase, 0)} && Outpoint(coinbase, 0) !in ledger
    ensures Update(Update(ledger, coinbase), tx) == ledger + Outputs(tx)
  {
    assert Outputs(coinbase).Keys == {Outpoint(coinbase, 0)};
    assert Update(ledger, coinbase) - Spent(tx) == ledger;
  }

  lemma OutputsRefine(next: Trie, last: Trie, lost: Ledger, ledger: Ledger, tx: UTXOTransaction)
    requires Refines(next, lost, ledger) && Written(next, last, tx, |Vout(tx)|)
    requires forall op :: op in ledger ==> op.txId != tx
    ensures Refines(last, lost, ledger + Outputs(tx))
  {
    var ledger' := ledger + Outputs(tx);
    hide Entry, Vout;
    forall o, op, v ensures Entry(last, o, op, v) <==> op in ledger' && op !in lost && ledger'[op] == TxOut(v, o) {
      assert Entry(next, o, op, v) <==> op in ledger && op !in lost && ledger[op] == TxOut(v, o);
    }
  }

  // ---------------------------------------------------------------- core/utxo_txpool.go

  /** The pool of UTXO transactions; `packed` is the history of what went into blocks. */
  class UTXOTxPool {
    var TxQueue: seq<UTXOTransaction>
    ghost var packed: seq<UTXOTransaction>

    constructor ()
      ensures TxQueue == [] && packed == []
    {
      TxQueue, packed := [], [];
    }

    method AddTxs2Pool(txs: seq<UTXOTransaction>)
      modifies this`TxQueue
      ensures TxQueue == old(TxQueue) + txs
    {
      for i := 0 to |txs|
        invariant TxQueue == old(TxQueue) + txs[..i]
      {
        TxQueue := TxQueue + [txs[i]];
      }
    }

    /** Blocks take transactions in the order they were added. */
    method PackTxs(maxTxs: nat) returns (txs: seq<UTXOTransaction>)
      modifies this
      ensures packed == old(packed) + txs && packed + TxQueue == old(packed + TxQueue)
      ensures |txs| == if |old(TxQueue)| < maxTxs then |old(TxQueue)| else maxTxs
    {
      var txNum := maxTxs;
      if |TxQueue| < txNum {
        txNum := |TxQueue|;
      }
      txs := TxQueue[..txNum];
      assert txs + TxQueue[txNum..] == TxQueue;
      TxQueue := TxQueue[txNum..];
      packed := packed + txs;
    }
  }

  // ---------------------------------------------------------------- chain/utxo_set.go, chain/blockchain.go

  /** A transfer request from a client. */
  datatype Injected = Injected(sender: string, recipient: string, value: nat)

  class UTXOChain {
    var UTXOStateRoot: Trie
    const UTXOTxpool: UTXOTxPool
    // History: the transactions produced, the plain ledger after them, the outputs the trie forgot and how
    // often it did.
    ghost var emitted: seq<UTXOTransaction>
    ghost var ledger: Ledger
    ghost var lost: Ledger
    ghost var drops: nat

    /** The trie is an index of the ledger that the history leaves behind. */
    ghost predicate Sound()
      reads this
    {
      && Replay(emitted) == Some(ledger)
      && AccountsOk(UTXOStateRoot)
      && Refines(UTXOStateRoot, lost, ledger)
      && (lost == map[] <==> drops == 0)
      && Worth(UTXOStateRoot) == Minted(emitted)
    }

    ghost predicate Valid()
      reads this, UTXOTxpool
    {
      Sound() && emitted == UTXOTxpool.packed + UTXOTxpool.TxQueue
    }

    constructor ()
      ensures Valid() && emitted == [] && drops == 0 && UTXOStateRoot == map[]
      ensures fresh(UTXOTxpool)
    {
      UTXOStateRoot := map[];
      UTXOTxpool := new UTXOTxPool();
      emitted, ledger, lost, drops := [], map[], map[], 0;
      new;
      assert Worths(map[]) == map[];
    }

    method FindSpendableOutputsFromStatusTrie(owner: PubKeyHash, amount: nat) returns (acc: int, outs: Chosen)
      requires AccountsOk(UTXOStateRoot)
      modifies this`UTXOStateRoot
      ensures AccountsOk(UTXOStateRoot)
      ensures Selected(old(UTXOStateRoot), UTXOStateRoot, owner, amount, acc, outs)
    {
      hide SplitOff, JustEnough, Total, ChosenValue;
      var state;
      outs := map[];
      if owner !in UTXOStateRoot {
        acc := -1;
        state := UTXOAccountState(0, map[]);
        NewAccountOk();
      } else {
        state := UTXOStateRoot[owner];
        assert AccountOk(state);
        if state.balance < amount {
          return 0, map[];
        }
        ghost var last;
        acc, outs, state, last := SelectOutputs(state, amount);
      }
      UTXOStateRoot := UTXOStateRoot[owner := state];
    }

    method NewUTXOTransaction(from: string, to: string, amount: nat, nonce: int)
      returns (tx: UTXOTransaction, coinbase: Option<UTXOTransaction>, ghost selected: int, ghost outs: Chosen)
      requires AccountsOk(UTXOStateRoot)
      modifies this`UTXOStateRoot
      ensures AccountsOk(UTXOStateRoot)
      ensures Selected(old(UTXOStateRoot), UTXOStateRoot, Sha(from), amount, selected, outs)
      ensures coinbase == if selected == -1 || selected == 0 then Some(Coinbase(TxOut(amount, Sha(from)), nonce)) else None
      ensures coinbase.Some? ==>
                tx == Transfer([TxIn(coinbase.value, 0, from)], Payments(from, to, amount, amount), to)
      ensures coinbase.None? ==>
                tx.Transfer? && selected >= 0 && tx.vout == Payments(from, to, amount, selected) && tx.recipient == to
                && Spends(old(UTXOStateRoot), from, tx.vin, selected, outs)
    {
      ghost var trie := UTXOStateRoot;
      var acc, validOutputs := FindSpendableOutputsFromStatusTrie(Sha(from), amount);
      selected, outs := acc, validOutputs;
      coinbase := None;
      SelectionFacts(trie, UTXOStateRoot, Sha(from), amount, selected, outs);
      hide Selected;
      if acc == -1 || acc == 0 {
        var minted := Coinbase(TxOut(amount, Sha(from)), nonce);
        coinbase := Some(minted);
        acc := amount;
        validOutputs := map[minted := [0]];
      }
      tx := BuildTx(from, to, amount, acc, validOutputs, AccountOf(trie, Sha(from)).utxos);
      if coinbase.Some? {
        OneInput(tx.vin, coinbase.value, from);
      }
    }

    method BuildTx(from: string, to: string, amount: nat, acc: nat, outs: Chosen, ghost u: Utxos) returns (tx: UTXOTransaction)
      requires forall t :: t in outs ==> Distinct(outs[t])
      ensures tx.Transfer? && tx.vout == Payments(from, to, amount, acc) && tx.recipient == to
      ensures Refers(tx.vin, outs, from) && InSum(u, tx.vin) == ChosenValue(u, outs)
    {
      hide Refers, InSum, ChosenValue;
      var inputs := BuildInputs(outs, from, u);
      var outputs := [TxOut(amount, Sha(to))];
      if acc > amount {
        outputs := outputs + [TxOut(acc - amount, Sha(from))];
      }
      tx := Transfer(inputs, outputs, to);
    }

    method AddUTXO2StatusTrie(tx: UTXOTransaction)
      modifies this`UTXOStateRoot
      ensures Written(old(UTXOStateRoot), UTXOStateRoot, tx, |Vout(tx)|)
      ensures AccountsOk(old(UTXOStateRoot)) && Unused(old(UTXOStateRoot), tx) ==>
                AccountsOk(UTXOStateRoot) && Worth(UTXOStateRoot) == Worth(old(UTXOStateRoot)) + OutValue(Vout(tx))
    {
      ghost var trie := UTXOStateRoot;
      var st := UTXOStateRoot;
      WriteNone(trie, tx);
      hide Written, AccountsOk, Unused, Worth, OutValue, Vout;
      for index := 0 to |Vout(tx)|
        invariant Written(trie, st, tx, index)
        invariant AccountsOk(trie) && Unused(trie, tx) ==>
                    AccountsOk(st) && Worth(st) == Worth(trie) + OutValue(Vout(tx)[..index])
      {
        ghost var before := st;
        st := AddOutput(st, Outpoint(tx, index), Vout(tx)[index]);
        WriteOne(trie, before, st, tx, index);
      }
      assert Vout(tx)[..|Vout(tx)|] == Vout(tx);
      UTXOStateRoot := st;
    }

    /** The second half of a transformation when the selection was worth something. */
    method FinishNormal(ghost trie: Trie, request: Injected, ghost acc: int, ghost outs: Chosen, tx: UTXOTransaction)
      requires Replay(emitted) == Some(ledger) && Refines(trie, lost, ledger) && (lost == map[] <==> drops == 0)
      requires AccountsOk(UTXOStateRoot) && Worth(UTXOStateRoot) + acc == Minted(emitted)
      requires Selected(trie, UTXOStateRoot, Sha(request.sender), request.value, acc, outs) && acc > 0 && acc >= request.value && outs != map[]
      requires tx.Transfer? && Spends(trie, request.sender, tx.vin, acc, outs)
      requires tx.vout == Payments(request.sender, request.recipient, request.value, acc)
      modifies this
      ensures Sound() && emitted == old(emitted) + [tx] && drops == old(drops)
    {
      hide Replay, Refines, AccountsOk, Worth, Minted, Selected, Spends, Payments, Unused, Written, Update, OutValue, Vout;
      NormalStep(emitted, ledger, lost, trie, UTXOStateRoot, request, acc, outs, tx);
      AddUTXO2StatusTrie(tx);
      ledger := Update(ledger, tx);
      emitted := emitted + [tx];
    }

    /** The second half when it was not: a coinbase comes first, and what was selected is forgotten. */
    method FinishCoinbase(ghost trie: Trie, request: Injected, ghost nonce: int, ghost acc: int, ghost outs: Chosen,
                          coinbase: UTXOTransaction, tx: UTXOTransaction)
      requires Replay(emitted) == Some(ledger) && Refines(trie, lost, ledger) && (lost == map[] <==> drops == 0)
      requires AccountsOk(trie) && AccountsOk(UTXOStateRoot) && Worth(UTXOStateRoot) == Minted(emitted)
      requires Selected(trie, UTXOStateRoot, Sha(request.sender), request.value, acc, outs) && acc <= 0
      requires forall t :: t in emitted && t.Coinbase? ==> t.nonce != nonce
      requires coinbase == Coinbase(TxOut(request.value, Sha(request.sender)), nonce)
      requires tx == Transfer([TxIn(coinbase, 0, request.sender)],
                              Payments(request.sender, request.recipient, request.value, request.value), request.recipient)
      modifies this
      ensures Sound() && emitted == old(emitted) + [coinbase, tx]
      ensures drops == old(drops) + if outs != map[] then 1 else 0
    {
      hide Replay, Refines, AccountsOk, Worth, Minted, Selected, Payments, Unused, Written, Update, OutValue, Vout, Forgotten, Taken;
      CoinbaseStep(emitted, ledger, lost, trie, UTXOStateRoot, request, nonce, acc, outs, coinbase, tx);
      AddUTXO2StatusTrie(tx);
      lost := lost + Forgotten(ledger, Taken(outs));
      ledger := Update(Update(ledger, coinbase), tx);
      if outs != map[] {
        drops := drops + 1;
      }
      emitted := emitted + [coinbase, tx];
    }

    /** One injected transfer: select or mint, build the transaction, index its outputs. */
    method TransformOne(request: Injected, nonce: int) returns (txs: seq<UTXOTransaction>)
      requires Sound()
      requires forall t :: t in emitted && t.Coinbase? ==> t.nonce != nonce
      modifies this
      ensures Sound() && emitted == old(emitted) + txs
      ensures drops == old(drops) + if Forgets(old(UTXOStateRoot), Sha(request.sender), request.value) then 1 else 0
      ensures Pays(old(UTXOStateRoot), request, nonce, txs)
      ensures Exact(UTXOStateRoot, ledger) <==>
                old(Exact(UTXOStateRoot, ledger)) && !Forgets(old(UTXOStateRoot), Sha(request.sender), request.value)
    {
      hide Replay, Refines, AccountsOk, Worth, Minted, Selected, Spends, Forgets, NeedsCoinbase, Payments, Exact;
      SoundExact();
      ghost var trie := UTXOStateRoot;
      var tx, coinbase;
      ghost var acc, outs;
      tx, coinbase, acc, outs := NewUTXOTransaction(request.sender, request.recipient, request.value, nonce);
      SelectedWorth(trie, UTXOStateRoot, Sha(request.sender), request.value, acc, outs);
      PaymentsPay(request, if coinbase.Some? then request.value else acc);
      if coinbase.Some? {
        txs := [coinbase.value, tx];
        FinishCoinbase(trie, request, nonce, acc, outs, coinbase.value, tx);
      } else {
        txs := [tx];
        FinishNormal(trie, request, acc, outs, tx);
      }
      SoundExact();
    }

    /** The loop over a batch: `nonces` are the random numbers that coinbases draw, `tries` the status trie before
        each request and at the end, `parts` what each request became. */
    method TransformAll(requests: seq<Injected>, nonces: seq<int>)
      returns (txs: seq<UTXOTransaction>, ghost tries: seq<Trie>, ghost parts: seq<seq<UTXOTransaction>>)
      requires Sound() && |nonces| == |requests| && FreshNonces(emitted, nonces, 0) && NoneTwice(nonces)
      modifies this
      ensures Sound() && emitted == old(emitted) + txs && txs == Concat(parts)
      ensures |parts| == |requests| && Batch(old(emitted), requests, nonces, tries, parts)
      ensures tries[0] == old(UTXOStateRoot) && tries[|parts|] == UTXOStateRoot
      ensures drops == old(drops) + Drops(requests, tries)
    {
      hide Sound, Exact, FreshNonces, Pays, Indexes, Forgets, Drops, Concat, NoneTwice;
      txs, tries, parts := [], [UTXOStateRoot], [];
      SoundIndexes();
      BatchNone(emitted, requests, nonces, UTXOStateRoot);
      hide Batch;
      for k := 0 to |requests|
        invariant Sound() && emitted == old(emitted) + txs && txs == Concat(parts)
        invariant FreshNonces(emitted, nonces, k)
        invariant |parts| == k && |tries| == k + 1 && tries[0] == old(UTXOStateRoot) && tries[k] == UTXOStateRoot
        invariant Batch(old(emitted), requests, nonces, tries, parts) && drops == old(drops) + Drops(requests, tries)
      {
        ghost var before := emitted;
        FreshAt(emitted, nonces, k);
        var more := TransformOne(requests[k], nonces[k]);
        StillFresh(tries[k], requests[k], before, nonces, k, more);
        SoundIndexes();
        assert old(emitted) + txs + more == old(emitted) + (txs + more);
        BatchMore(old(emitted), requests, nonces, tries, parts, UTXOStateRoot, more);
        txs := txs + more;
        tries, parts := tries + [UTXOStateRoot], parts + [more];
      }
    }

    /** One batch of TxTransform: every request is transformed, in order, and the pool gains what came of it. */
    method TxTransform(requests: seq<Injected>, nonces: seq<int>) returns (ghost tries: seq<Trie>, ghost parts: seq<seq<UTXOTransaction>>)
      requires Valid() && |nonces| == |requests| && FreshNonces(emitted, nonces, 0) && NoneTwice(nonces)
      modifies this, UTXOTxpool
      ensures Valid() && UTXOTxpool.packed == old(UTXOTxpool.packed)
      ensures emitted == old(emitted) + Concat(parts) && UTXOTxpool.TxQueue == old(UTXOTxpool.TxQueue) + Concat(parts)
      ensures |parts| == |requests| && Batch(old(emitted), requests, nonces, tries, parts)
      ensures tries[0] == old(UTXOStateRoot) && tries[|parts|] == UTXOStateRoot
      ensures drops == old(drops) + Drops(requests, tries)
      ensures Exact(UTXOStateRoot, ledger) <==> drops == 0
    {
      hide Sound, Exact, FreshNonces, Indexes, Forgets, Drops, Concat, NoneTwice, Pays;
      var txs;
      txs, tries, parts := TransformAll(requests, nonces);
      UTXOTxpool.AddTxs2Pool(txs);
      SoundExact();
      assert old(emitted) + txs == old(UTXOTxpool.packed) + (old(UTXOTxpool.TxQueue) + txs);
    }

    /** Packing a block; whoever replays the blocks in order has every transaction accepted. */
    method GenerateBlock(blockSize: nat) returns (body: seq<UTXOTransaction>)
      requires Valid()
      modifies UTXOTxpool
      ensures Valid() && UTXOTxpool.packed == old(UTXOTxpool.packed) + body
      ensures Replay(UTXOTxpool.packed).Some?
    {
      body := UTXOTxpool.PackTxs(blockSize);
      hide Replay;
      assert emitted[..|UTXOTxpool.packed|] == UTXOTxpool.packed;
      PrefixReplays(emitted, |UTXOTxpool.packed|);
    }

    lemma SoundIndexes()
      requires Sound()
      ensures Indexes(UTXOStateRoot, emitted)
    {
      hide Replay, Refines, AccountsOk, Worth, Minted;
    }

    lemma SoundExact()
      requires Sound()
      ensures Exact(UTXOStateRoot, ledger) <==> drops == 0
    {
      hide Replay, Refines, AccountsOk, Worth, Minted, Exact;
      ExactMeansNothingLost(UTXOStateRoot, lost, ledger);
    }
  }

  // ---------------------------------------------------------------- a batch of transformations

  function Concat(parts: seq<seq<UTXOTransaction>>): seq<UTXOTransaction> {
    if parts == [] then [] else Concat(parts[..|parts| - 1]) + parts[|parts| - 1]
  }

  /** The trie lists unspent outputs of an accepted history and is worth what that history minted. */
  ghost predicate Indexes(trie: Trie, txs: seq<UTXOTransaction>) {
    && AccountsOk(trie) && Worth(trie) == Minted(txs)
    && Replay(txs).Some? && exists lost :: Refines(trie, lost, Replay(txs).value)
  }

  /** The first requests became `parts`, one after the other on a history `txs`: the trie before each request
      indexes what was emitted before it, and each part pays its request. */
  ghost predicate Batch(txs: seq<UTXOTransaction>, requests: seq<Injected>, nonces: seq<int>, tries: seq<Trie>,
                        parts: seq<seq<UTXOTransaction>>)
  {
    && |parts| <= |requests| && |requests| == |nonces| && |tries| == |parts| + 1
    && (forall k :: 0 <= k < |tries| ==> Indexes(tries[k], txs + Concat(parts[..k])))
    && (forall k :: 0 <= k < |parts| ==> Pays(tries[k], requests[k], nonces[k], parts[k]))
  }

  /** How many requests forgot outputs. */
  ghost function Drops(requests: seq<Injected>, tries: seq<Trie>): nat
    requires 1 <= |tries| <= |requests| + 1
  {
    if |tries| == 1 then 0 else
      var k := |tries| - 2;
      Drops(requests, tries[..k + 1]) + if Forgets(tries[k], Sha(requests[k].sender), requests[k].value) then 1 else 0
  }

  lemma BatchNone(txs: seq<UTXOTransaction>, requests: seq<Injected>, nonces: seq<int>, trie: Trie)
    requires |requests| == |nonces| && Indexes(trie, txs)
    ensures Batch(txs, requests, nonces, [trie], []) && Drops(requests, [trie]) == 0 && Concat([]) == []
  {
    hide Indexes;
    assert txs + [] == txs;
  }

  lemma BatchMore(txs: seq<UTXOTransaction>, requests: seq<Injected>, nonces: seq<int>, tries: seq<Trie>,
                  parts: seq<seq<UTXOTransaction>>, trie: Trie, more: seq<UTXOTransaction>)
    requires Batch(txs, requests, nonces, tries, parts) && |parts| < |requests|
    requires Pays(tries[|parts|], requests[|parts|], nonces[|parts|], more)
    requires Indexes(trie, txs + (Concat(parts) + more))
    ensures Concat(parts + [more]) == Concat(parts) + more
    ensures Batch(txs, requests, nonces, tries + [trie], parts + [more])
    ensures var r := requests[|parts|];
      Drops(requests, tries + [trie]) == Drops(requests, tries) + if Forgets(tries[|parts|], Sha(r.sender), r.value) then 1 else 0
  {
    hide Indexes, Pays, Forgets;
    var n := |parts|;
    assert (parts + [more])[..n] == parts && (tries + [trie])[..n + 1] == tries;
    forall k | 0 <= k <= n + 1 ensures Indexes((tries + [trie])[k], txs + Concat((parts + [more])[..k])) {
      if k <= n {
        assert (parts + [more])[..k] == parts[..k];
      } else {
        assert (parts + [more])[..k] == parts + [more];
      }
    }
  }

  function TransfersIn(txs: seq<UTXOTransaction>): seq<UTXOTransaction> {
    if txs == [] then [] else
      var last := txs[|txs| - 1];
      TransfersIn(txs[..|txs| - 1]) + if last.Transfer? then [last] else []
  }

  lemma {:induction false} TransfersInAdd(a: seq<UTXOTransaction>, b: seq<UTXOTransaction>)
    ensures TransfersIn(a + b) == TransfersIn(a) + TransfersIn(b)
  {
    if b == [] {
      assert a + b == a;
    } else {
      assert (a + b)[..|a + b| - 1] == a + b[..|b| - 1];
      TransfersInAdd(a, b[..|b| - 1]);
    }
  }

  /** The transaction is a transfer to the recipient that pays the amount as its first output. */
  ghost predicate Delivers(tx: UTXOTransaction, request: Injected) {
    && tx.Transfer? && tx.recipient == request.recipient && tx.vout != []
    && tx.vout[0] == TxOut(request.value, Sha(request.recipient))
  }

  lemma OneTransfer(trie: Trie, request: Injected, nonce: int, txs: seq<UTXOTransaction>)
    requires Pays(trie, request, nonce, txs)
    ensures txs != [] && TransfersIn(txs) == [txs[|txs| - 1]] && Delivers(txs[|txs| - 1], request)
  {
    hide NeedsCoinbase;
    if |txs| == 2 {
      assert txs[..1] == [txs[0]] && txs[..1][..0] == [];
      assert TransfersIn([txs[0]]) == TransfersIn([]);
    }
  }

  /** What the pool gains: among the transactions of a batch there is one transfer for each request, in the order
      of the requests, and it delivers what was asked for. */
  lemma {:induction false} BatchTransfers(txs: seq<UTXOTransaction>, requests: seq<Injected>, nonces: seq<int>,
                                          tries: seq<Trie>, parts: seq<seq<UTXOTransaction>>)
    requires Batch(txs, requests, nonces, tries, parts)
    ensures |TransfersIn(Concat(parts))| == |parts|
    ensures forall k :: 0 <= k < |parts| ==> Delivers(TransfersIn(Concat(parts))[k], requests[k])
    decreases |parts|
  {
    hide Batch, TransfersIn, Delivers;
    if parts != [] {
      var n := |parts| - 1;
      BatchFirst(txs, requests, nonces, tries, parts);
      BatchTransfers(txs, requests, nonces, tries[..n + 1], parts[..n]);
      TransfersInAdd(Concat(parts[..n]), parts[n]);
      BatchLast(txs, requests, nonces, tries, parts);
    } else {
      NoTransfers();
    }
  }

  lemma NoTransfers()
    ensures TransfersIn([]) == []
  {
  }

  lemma BatchLast(txs: seq<UTXOTransaction>, requests: seq<Injected>, nonces: seq<int>, tries: seq<Trie>, parts: seq<seq<UTXOTransaction>>)
    requires Batch(txs, requests, nonces, tries, parts) && parts != []
    ensures var n := |parts| - 1;
      exists tx :: TransfersIn(parts[n]) == [tx] && Delivers(tx, requests[n])
  {
    hide Indexes;
    var n := |parts| - 1;
    assert Pays(tries[n], requests[n], nonces[n], parts[n]);
    OneTransfer(tries[n], requests[n], nonces[n], parts[n]);
  }

  lemma BatchFirst(txs: seq<UTXOTransaction>, requests: seq<Injected>, nonces: seq<int>, tries: seq<Trie>, parts: seq<seq<UTXOTransaction>>)
    requires Batch(txs, requests, nonces, tries, parts) && parts != []
    ensures |tries| == |parts| + 1 && Batch(txs, requests, nonces, tries[..|parts|], parts[..|parts| - 1])
  {
    hide Indexes, Pays, Concat;
    var n := |parts| - 1;
    forall k | 0 <= k <= n ensures Indexes(tries[..n + 1][k], txs + Concat(parts[..n][..k])) {
      assert parts[..n][..k] == parts[..k];
    }
  }

  ghost predicate NoneTwice(nonces: seq<int>) {
    forall p, q :: 0 <= p < q < |nonces| ==> nonces[p] != nonces[q]
  }

  /** The nonces from `k` on have not been used. */
  ghost predicate FreshNonces(txs: seq<UTXOTransaction>, nonces: seq<int>, k: nat) {
    forall t, m :: t in txs && t.Coinbase? && k <= m < |nonces| ==> t.nonce != nonces[m]
  }

  lemma FreshAt(txs: seq<UTXOTransaction>, nonces: seq<int>, k: nat)
    requires FreshNonces(txs, nonces, k) && k < |nonces|
    ensures forall t :: t in txs && t.Coinbase? ==> t.nonce != nonces[k]
  {
  }

  lemma StillFresh(trie: Trie, request: Injected, txs: seq<UTXOTransaction>, nonces: seq<int>, k: nat, more: seq<UTXOTransaction>)
    requires FreshNonces(txs, nonces, k) && k < |nonces| && Pays(trie, request, nonces[k], more)
    requires NoneTwice(nonces)
    ensures FreshNonces(txs + more, nonces, k + 1)
  {
  }

  /** The exception is reachable: pay nothing to someone, then let them pay nothing. */
  method ForgettingRun() returns (c: UTXOChain)
    ensures c.Sound() && c.drops == 1 && !Exact(c.UTXOStateRoot, c.ledger)
  {
    c := new UTXOChain();
    var first := c.TransformOne(Injected("a", "b", 0), 1);
    ghost var last := first[|first| - 1];
    assert first == [] + first && last in c.emitted && NeedsCoinbase(map[], Sha("a"), 0);
    assert c.emitted == [first[0], last];
    FirstPayment(c.UTXOStateRoot, c.ledger, c.emitted, last);
    var second := c.TransformOne(Injected("b", "c", 0), 2);
  }

  lemma FirstPayment(trie: Trie, ledger: Ledger, txs: seq<UTXOTransaction>, tx: UTXOTransaction)
    requires Replay(txs) == Some(ledger) && Refines(trie, map[], ledger) && AccountsOk(trie) && Worth(trie) == Minted(txs)
    requires |txs| == 2 && txs[1] == tx && tx.Transfer? && PaysOut(tx.vout, Injected("a", "b", 0))
    requires txs[0] == Coinbase(TxOut(0, Sha("a")), 1)
    ensures Forgets(trie, Sha("b"), 0)
  {
    FirstInLedger(txs, ledger, tx);
    hide Replay, Worth, Minted, AccountsOk, Total;
    assert Entry(trie, Sha("b"), Outpoint(tx, 0), 0);
    FirstMintsNothing(txs, tx);
    WorthlessAccount(trie, Sha("b"));
  }

  lemma FirstMintsNothing(txs: seq<UTXOTransaction>, tx: UTXOTransaction)
    requires |txs| == 2 && txs[1] == tx && tx.Transfer? && txs[0] == Coinbase(TxOut(0, Sha("a")), 1)
    ensures Minted(txs) == 0
  {
    assert txs[..1] == [txs[0]] && txs[..1][..0] == [];
    assert Minted(txs[..1]) == 0;
  }

  lemma WorthlessAccount(trie: Trie, owner: PubKeyHash)
    requires AccountsOk(trie) && Worth(trie) == 0 && owner in trie
    ensures trie[owner].balance == 0
  {
    SumOut(Worths(trie), owner);
    assert AccountOk(trie[owner]);
  }

  lemma FirstInLedger(txs: seq<UTXOTransaction>, ledger: Ledger, tx: UTXOTransaction)
    requires Replay(txs) == Some(ledger) && |txs| == 2 && txs[1] == tx && tx.Transfer? && tx.vout != []
    ensures Outpoint(tx, 0) in ledger && ledger[Outpoint(tx, 0)] == tx.vout[0]
  {
    PrefixAccepted(txs, 1);
    assert Outpoint(tx, 0) in Outputs(tx);
  }

  /** What NewUTXOTransaction relies on after the selection. */
  lemma SelectionFacts(trie: Trie, next: Trie, owner: PubKeyHash, amount: nat, acc: int, outs: Chosen)
    requires Selected(trie, next, owner, amount, acc, outs)
    ensures forall t :: t in outs ==> Distinct(outs[t])
    ensures acc > 0 ==> owner in trie && acc == ChosenValue(trie[owner].utxos, outs)
    ensures acc == -1 || acc >= 0
  {
  }

  lemma OneInput(vin: seq<TxIn>, coinbase: UTXOTransaction, from: string)
    requires Refers(vin, map[coinbase := [0]], from)
    ensures vin == [TxIn(coinbase, 0, from)]
  {
    assert Listed(map[coinbase := [0]], Outpoint(coinbase, 0));
    forall k | 0 <= k < |vin| ensures vin[k] == TxIn(coinbase, 0, from) {
      assert vin[k] in vin;
    }
    assert vin != [] && Ref(vin[|vin| - 1]) == Ref(vin[0]);
  }

  /** The inputs are the selection from the sender's account and are worth `acc`. */
  ghost predicate Spends(trie: Trie, from: string, vin: seq<TxIn>, acc: nat, outs: Chosen) {
    Sha(from) in trie && Refers(vin, outs, from) && InSum(trie[Sha(from)].utxos, vin) == acc
  }

  // ---------------------------------------------------------------- writing outputs, step by step

  lemma WriteNone(trie: Trie, tx: UTXOTransaction)
    ensures Written(trie, trie, tx, 0)
    ensures OutValue(Vout(tx)[..0]) == 0
  {
  }

  lemma WriteOne(trie: Trie, st: Trie, next: Trie, tx: UTXOTransaction, index: nat)
    requires index < |Vout(tx)| && Written(trie, st, tx, index)
    requires forall o, p, v :: Entry(next, o, p, v) <==>
               if o == Vout(tx)[index].pubKeyHash && p == Outpoint(tx, index) then v == Vout(tx)[index].value else Entry(st, o, p, v)
    ensures Written(trie, next, tx, index + 1)
    ensures Unused(trie, tx) ==> !Stored(AccountOf(st, Vout(tx)[index].pubKeyHash).utxos, Outpoint(tx, index))
    ensures OutValue(Vout(tx)[..index + 1]) == OutValue(Vout(tx)[..index]) + Vout(tx)[index].value
  {
    assert Vout(tx)[..index + 1][..index] == Vout(tx)[..index];
    WriteOneEntries(trie, st, next, tx, index);
    var o, op := Vout(tx)[index].pubKeyHash, Outpoint(tx, index);
    var v := ValueIn(OutsOf(AccountOf(st, o).utxos, tx), index);
    assert Stored(AccountOf(st, o).utxos, op) <==> Entry(st, o, op, v);
    assert Entry(st, o, op, v) <==> Entry(trie, o, op, v);
  }

  lemma WriteOneEntries(trie: Trie, st: Trie, next: Trie, tx: UTXOTransaction, index: nat)
    requires index < |Vout(tx)| && Written(trie, st, tx, index)
    requires forall o, p, v :: Entry(next, o, p, v) <==>
               if o == Vout(tx)[index].pubKeyHash && p == Outpoint(tx, index) then v == Vout(tx)[index].value else Entry(st, o, p, v)
    ensures Written(trie, next, tx, index + 1)
  {
    hide Entry, Vout;
  }

  // ---------------------------------------------------------------- one transformation

  /** What a transformed request pays: the recipient gets the amount, the rest returns to the sender; a
      coinbase for the amount comes first exactly when one is needed. */
  ghost predicate Pays(trie: Trie, request: Injected, nonce: int, txs: seq<UTXOTransaction>) {
    && (if NeedsCoinbase(trie, Sha(request.sender), request.value)
        then |txs| == 2 && txs[0] == Coinbase(TxOut(request.value, Sha(request.sender)), nonce)
        else |txs| == 1)
    && txs[|txs| - 1].Transfer? && txs[|txs| - 1].recipient == request.recipient
    && PaysOut(Vout(txs[|txs| - 1]), request)
  }

  ghost predicate PaysOut(vout: seq<TxOut>, request: Injected) {
    && vout != [] && vout[0] == TxOut(request.value, Sha(request.recipient))
    && forall k :: 1 <= k < |vout| ==> vout[k].pubKeyHash == Sha(request.sender)
  }

  lemma PaymentsPay(request: Injected, acc: nat)
    ensures PaysOut(Payments(request.sender, request.recipient, request.value, acc), request)
  {
  }

  lemma MintedMore(txs: seq<UTXOTransaction>, tx: UTXOTransaction)
    ensures Minted(txs + [tx]) == Minted(txs) + if tx.Coinbase? then tx.out.value else 0
  {
    assert (txs + [tx])[..|txs|] == txs;
  }

  /** What is listed is in the ledger, belongs to the owner and is not lost. */
  lemma TakenInLedger(trie: Trie, next: Trie, lost: Ledger, ledger: Ledger, owner: PubKeyHash, amount: nat, acc: int, outs: Chosen)
    requires Refines(trie, lost, ledger) && Selected(trie, next, owner, amount, acc, outs)
    ensures forall op :: op in Taken(outs) ==>
              op in ledger && op !in lost && ledger[op].pubKeyHash == owner && Entry(trie, owner, op, ledger[op].value)
  {
    SelectedTakesOut(trie, next, owner, amount, acc, outs);
    hide Taken, Selected, TakenOut;
    forall op | op in Taken(outs)
      ensures op in ledger && op !in lost && ledger[op].pubKeyHash == owner && Entry(trie, owner, op, ledger[op].value)
    {
      assert Entry(trie, owner, op, trie[owner].utxos[op.txId][op.index]);
    }
  }

  /** A transaction with an unknown id has no entries, before or after selection. */
  lemma UnusedAfter(trie: Trie, next: Trie, lost: Ledger, ledger: Ledger, owner: PubKeyHash, taken: set<Outpoint>, tx: UTXOTransaction)
    requires Refines(trie, lost, ledger) && TakenOut(trie, next, owner, taken) && forall op :: op in ledger ==> op.txId != tx
    ensures Unused(next, tx)
  {
    hide Entry;
  }

  /** The id of an accepted transfer does not occur in the ledger. */
  lemma IdIsNew(txs: seq<UTXOTransaction>, ledger: Ledger, tx: UTXOTransaction)
    requires Replay(txs) == Some(ledger) && Accepts(txs, ledger, tx)
    ensures tx !in txs && forall op :: op in ledger ==> op.txId != tx
  {
    ReplayFacts(txs);
    NewIsNew(txs, ledger, tx);
  }

  ghost predicate Carries(next: Trie, tx: UTXOTransaction, lost: Ledger, ledger: Ledger) {
    forall last :: Written(next, last, tx, |Vout(tx)|) ==> Refines(last, lost, ledger)
  }

  /** Enough funds: the ledger accepts the transfer, and the trie keeps up with it. */
  lemma NormalStep(txs: seq<UTXOTransaction>, ledger: Ledger, lost: Ledger, trie: Trie, next: Trie, request: Injected,
                   acc: int, outs: Chosen, tx: UTXOTransaction)
    requires Replay(txs) == Some(ledger) && Refines(trie, lost, ledger)
    requires Selected(trie, next, Sha(request.sender), request.value, acc, outs) && acc > 0 && acc >= request.value && outs != map[]
    requires tx.Transfer? && Spends(trie, request.sender, tx.vin, acc, outs)
    requires tx.vout == Payments(request.sender, request.recipient, request.value, acc)
    ensures Replay(txs + [tx]) == Some(Update(ledger, tx)) && Minted(txs + [tx]) == Minted(txs)
    ensures Unused(next, tx) && OutValue(Vout(tx)) == acc
    ensures Carries(next, tx, lost, Update(ledger, tx))
  {
    var owner := Sha(request.sender);
    PaymentsValue(request.sender, request.recipient, request.value, acc);
    NormalAccepted(txs, ledger, lost, trie, next, request, acc, outs, tx);
    SelectedTakesOut(trie, next, owner, request.value, acc, outs);
    TakenInLedger(trie, next, lost, ledger, owner, request.value, acc, outs);
    ReplayOne(txs, ledger, tx);
    MintedMore(txs, tx);
    IdIsNew(txs, ledger, tx);
    hide Selected, Spends, Payments, Refines, TakenOut, Written, Accepts, Update, Unused, Taken, Replay, Spent;
    UnusedAfter(trie, next, lost, ledger, owner, Spent(tx), tx);
    forall last | Written(next, last, tx, |Vout(tx)|) ensures Refines(last, lost, Update(ledger, tx)) {
      TransferRefines(trie, next, last, lost, ledger, owner, tx);
    }
  }

  lemma NormalAccepted(txs: seq<UTXOTransaction>, ledger: Ledger, lost: Ledger, trie: Trie, next: Trie, request: Injected,
                       acc: int, outs: Chosen, tx: UTXOTransaction)
    requires Refines(trie, lost, ledger)
    requires Selected(trie, next, Sha(request.sender), request.value, acc, outs) && acc > 0 && outs != map[]
    requires tx.Transfer? && Spends(trie, request.sender, tx.vin, acc, outs) && OutValue(tx.vout) == acc
    ensures Accepts(txs, ledger, tx) && Spent(tx) == Taken(outs)
  {
    SelectedLists(trie, next, Sha(request.sender), request.value, acc, outs);
    hide Selected, Refines, Refers, InSum, OutValue, Accepts;
    SelectionAccepted(txs, ledger, lost, trie, request.sender, outs, tx);
  }

  lemma SelectedLists(trie: Trie, next: Trie, owner: PubKeyHash, amount: nat, acc: int, outs: Chosen)
    requires Selected(trie, next, owner, amount, acc, outs) && owner in trie
    ensures forall op :: Listed(outs, op) ==> Stored(trie[owner].utxos, op)
    ensures forall t :: t in outs ==> outs[t] != []
  {
  }

  lemma PartOfTotal(u: Utxos, op: Outpoint, v: nat)
    requires Has(u, op, v)
    ensures v <= Total(u)
  {
    TotalOut(u, op.txId);
    SumOut(u[op.txId], op.index);
  }

  /** When selection gives up, whatever it removed was worthless. */
  lemma GaveUpWorthless(trie: Trie, next: Trie, lost: Ledger, ledger: Ledger, owner: PubKeyHash, amount: nat, acc: int, outs: Chosen)
    requires Refines(trie, lost, ledger) && AccountsOk(trie) && AccountsOk(next)
    requires Selected(trie, next, owner, amount, acc, outs) && acc <= 0
    ensures forall op :: op in Taken(outs) ==> op in ledger && op !in lost && ledger[op] == TxOut(0, owner)
  {
    TakenInLedger(trie, next, lost, ledger, owner, amount, acc, outs);
    SelectedTakesOut(trie, next, owner, amount, acc, outs);
    forall op | op in Taken(outs) ensures ledger[op].value == 0 {
      AccountEmptied(trie, next, owner, amount, acc, outs, op);
      PartOfTotal(trie[owner].utxos, op, ledger[op].value);
    }
  }

  lemma AccountEmptied(trie: Trie, next: Trie, owner: PubKeyHash, amount: nat, acc: int, outs: Chosen, op: Outpoint)
    requires AccountsOk(trie) && AccountsOk(next) && Selected(trie, next, owner, amount, acc, outs) && acc <= 0
    requires op in Taken(outs)
    ensures owner in trie && Total(trie[owner].utxos) == 0
  {
    TakenIs(outs);
    assert outs != map[];
    hide SplitOff, JustEnough, ChosenValue, Total, Taken;
    EmptyTotal(next[owner].utxos);
    assert AccountOk(trie[owner]) && AccountOk(next[owner]);
  }

  /** No funds: the ledger accepts a fresh coinbase and the transfer that spends it at once; the trie keeps up
      but for the outputs that the selection removed in vain. */
  lemma CoinbaseStep(txs: seq<UTXOTransaction>, ledger: Ledger, lost: Ledger, trie: Trie, next: Trie, request: Injected,
                     nonce: int, acc: int, outs: Chosen, coinbase: UTXOTransaction, tx: UTXOTransaction)
    requires Replay(txs) == Some(ledger) && Refines(trie, lost, ledger) && AccountsOk(trie) && AccountsOk(next)
    requires Selected(trie, next, Sha(request.sender), request.value, acc, outs) && acc <= 0
    requires forall t :: t in txs && t.Coinbase? ==> t.nonce != nonce
    requires coinbase == Coinbase(TxOut(request.value, Sha(request.sender)), nonce)
    requires tx == Transfer([TxIn(coinbase, 0, request.sender)], Payments(request.sender, request.recipient, request.value, request.value),
                            request.recipient)
    ensures Replay(txs + [coinbase, tx]) == Some(Update(Update(ledger, coinbase), tx))
    ensures Minted(txs + [coinbase, tx]) == Minted(txs) + request.value
    ensures Unused(next, tx) && OutValue(Vout(tx)) == request.value
    ensures Carries(next, tx, lost + Forgotten(ledger, Taken(outs)), Update(Update(ledger, coinbase), tx))
    ensures lost + Forgotten(ledger, Taken(outs)) == map[] <==> lost == map[] && outs == map[]
  {
    var owner := Sha(request.sender);
    PaymentsValue(request.sender, request.recipient, request.value, request.value);
    GaveUpWorthless(trie, next, lost, ledger, owner, request.value, acc, outs);
    SelectedTakesOut(trie, next, owner, request.value, acc, outs);
    TakenSome(trie, next, owner, request.value, acc, outs);
    hide Selected, AccountsOk, Taken, OutValue, Payments;
    CoinbaseReplay(txs, ledger, request, nonce, coinbase, tx);
    CoinbaseCarries(txs, ledger, lost, trie, next, owner, Taken(outs), coinbase, tx);
    assert Forgotten(ledger, Taken(outs)).Keys == Taken(outs);
    KeysOfSum(lost, Forgotten(ledger, Taken(outs)));
  }

  lemma KeysOfSum(a: Ledger, b: Ledger)
    ensures a + b == map[] <==> a == map[] && b.Keys == {}
  {
    if a + b == map[] {
      assert (a + b).Keys == {};
      assert (a + b).Keys == a.Keys + b.Keys;
    }
    if a == map[] && b.Keys == {} {
      assert (a + b).Keys == {};
    }
  }

  lemma TakenSome(trie: Trie, next: Trie, owner: PubKeyHash, amount: nat, acc: int, outs: Chosen)
    requires Selected(trie, next, owner, amount, acc, outs)
    ensures Taken(outs) == {} <==> outs == map[]
  {
    TakenIs(outs);
    if outs != map[] {
      var t :| t in outs;
      SelectedNonempty(trie, next, owner, amount, acc, outs);
      assert Listed(outs, Outpoint(t, outs[t][0]));
    } else {
      assert forall op :: !Listed(outs, op);
    }
  }

  lemma SelectedNonempty(trie: Trie, next: Trie, owner: PubKeyHash, amount: nat, acc: int, outs: Chosen)
    requires Selected(trie, next, owner, amount, acc, outs)
    ensures forall t :: t in outs ==> outs[t] != []
  {
  }

  lemma CoinbaseReplay(txs: seq<UTXOTransaction>, ledger: Ledger, request: Injected, nonce: int, coinbase: UTXOTransaction, tx: UTXOTransaction)
    requires Replay(txs) == Some(ledger)
    requires forall t :: t in txs && t.Coinbase? ==> t.nonce != nonce
    requires coinbase == Coinbase(TxOut(request.value, Sha(request.sender)), nonce)
    requires tx.Transfer? && tx.vin == [TxIn(coinbase, 0, request.sender)] && OutValue(tx.vout) == request.value
    ensures Replay(txs + [coinbase, tx]) == Some(Update(Update(ledger, coinbase), tx))
    ensures Minted(txs + [coinbase, tx]) == Minted(txs) + request.value
    ensures Accepts(txs + [coinbase], Update(ledger, coinbase), tx) && Accepts(txs, ledger, coinbase)
    ensures Replay(txs + [coinbase]) == Some(Update(ledger, coinbase))
  {
    hide OutValue, Update, Accepts, Replay, Minted;
    CoinbaseAccepted(txs, ledger, request.sender, request.value, nonce, tx);
    ReplayOne(txs, ledger, coinbase);
    ReplayOne(txs + [coinbase], Update(ledger, coinbase), tx);
    MintedMore(txs, coinbase);
    MintedMore(txs + [coinbase], tx);
    assert txs + [coinbase] + [tx] == txs + [coinbase, tx];
  }

  lemma CoinbaseCarries(txs: seq<UTXOTransaction>, ledger: Ledger, lost: Ledger, trie: Trie, next: Trie, owner: PubKeyHash,
                        taken: set<Outpoint>, coinbase: UTXOTransaction, tx: UTXOTransaction)
    requires Replay(txs) == Some(ledger) && Refines(trie, lost, ledger) && TakenOut(trie, next, owner, taken)
    requires forall op :: op in taken ==> op in ledger && op !in lost && ledger[op] == TxOut(0, owner)
    requires coinbase.Coinbase? && Accepts(txs, ledger, coinbase) && Replay(txs + [coinbase]) == Some(Update(ledger, coinbase))
    requires tx.Transfer? && Accepts(txs + [coinbase], Update(ledger, coinbase), tx) && |tx.vin| == 1 && Ref(tx.vin[0]) == Outpoint(coinbase, 0)
    ensures Unused(next, tx)
    ensures Carries(next, tx, lost + Forgotten(ledger, taken), Update(Update(ledger, coinbase), tx))
  {
    IdIsNew(txs, ledger, coinbase);
    IdIsNew(txs + [coinbase], Update(ledger, coinbase), tx);
    assert Spent(tx) == {Outpoint(coinbase, 0)};
    CoinbaseSpent(ledger, coinbase, tx);
    OldIds(ledger, coinbase, tx);
    hide Refines, TakenOut, Written, Accepts, Update, Unused, Replay, Forgotten, Outputs, Spent;
    UnusedAfter(trie, next, lost, ledger, owner, taken, tx);
    ForgetRefines(trie, next, lost, ledger, owner, taken);
    forall last | Written(next, last, tx, |Vout(tx)|)
      ensures Refines(last, lost + Forgotten(ledger, taken), Update(Update(ledger, coinbase), tx))
    {
      OutputsRefine(next, last, lost + Forgotten(ledger, taken), ledger, tx);
    }
  }

  lemma OldIds(ledger: Ledger, coinbase: UTXOTransaction, tx: UTXOTransaction)
    requires coinbase.Coinbase? && forall op :: op in Update(ledger, coinbase) ==> op.txId != tx
    ensures forall op :: op in ledger ==> op.txId != tx
  {
    forall op | op in ledger ensures op.txId != tx {
      assert op in Update(ledger, coinbase);
    }
  }
}
