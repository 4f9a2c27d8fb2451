/** The plain ledger behind UTXO mode: which outputs are unspent after a list of transactions, and what the
    status trie has to do with it (core/utxo_transaction.go, chain/utxo_set.go). */
module UtxoLedger {
  datatype Option<T> = None | Some(value: T)

  /** The hash of a public key; injective, so it is modelled by its argument. */
  datatype PubKeyHash = Sha(key: string)

  datatype TxOut = TxOut(value: nat, pubKeyHash: PubKeyHash)

  datatype TxIn = TxIn(prevTxId: TxId, index: int, pubKey: string)

  /** A transaction's id is the hash of its content, which is injective: the transaction stands for its own
      id. */
  datatype UTXOTransaction =
    | Coinbase(out: TxOut, nonce: int)
    | Transfer(vin: seq<TxIn>, vout: seq<TxOut>, recipient: string)

  type TxId = UTXOTransaction

  datatype Outpoint = Outpoint(txId: TxId, index: int)

  function Vin(tx: UTXOTransaction): seq<TxIn> {
    match tx
    case Coinbase(_, _) => []
    case Transfer(vin, _, _) => vin
  }

  function Vout(tx: UTXOTransaction): seq<TxOut> {
    match tx
    case Coinbase(out, _) => [out]
    case Transfer(_, vout, _) => vout
  }

  function Ref(i: TxIn): Outpoint {
    Outpoint(i.prevTxId, i.index)
  }

  // ---------------------------------------------------------------- the ledger

  type Ledger = map<Outpoint, TxOut>

  function ValueAt(ledger: Ledger, op: Outpoint): nat {
    if op in ledger then ledger[op].value else 0
  }

  function InValue(ledger: Ledger, vin: seq<TxIn>): nat {
    if vin == [] then 0 else InValue(ledger, vin[..|vin| - 1]) + ValueAt(ledger, Ref(vin[|vin| - 1]))
  }

  function OutValue(vout: seq<TxOut>): nat {
    if vout == [] then 0 else OutValue(vout[..|vout| - 1]) + vout[|vout| - 1].value
  }

  ghost predicate DistinctRefs(vin: seq<TxIn>) {
    forall p, q :: 0 <= p < q < |vin| ==> Ref(vin[p]) != Ref(vin[q])
  }

  /** A transfer may be added if its inputs are unspent, belong to whoever signs for them, are listed once
      each and are worth what the outputs are; a coinbase transaction if it is new. */
  ghost predicate Accepts(history: seq<UTXOTransaction>, ledger: Ledger, tx: UTXOTransaction) {
    match tx
    case Coinbase(_, _) => tx !in history
    case Transfer(vin, vout, _) =>
      && vin != []
      && (forall i :: i in vin ==> Ref(i) in ledger && ledger[Ref(i)].pubKeyHash == Sha(i.pubKey))
      && DistinctRefs(vin)
      && InValue(ledger, vin) == OutValue(vout)
  }

  function Outputs(tx: UTXOTransaction): Ledger {
    map k | 0 <= k < |Vout(tx)| :: Outpoint(tx, k) := Vout(tx)[k]
  }

  function Spent(tx: UTXOTransaction): set<Outpoint> {
    set i | i in Vin(tx) :: Ref(i)
  }

  function Update(ledger: Ledger, tx: UTXOTransaction): Ledger {
    (ledger - Spent(tx)) + Outputs(tx)
  }

  /** The unspent outputs after these transactions, if the ledger accepts every one of them. */
  ghost function Replay(txs: seq<UTXOTransaction>): Option<Ledger> {
    if txs == [] then Some(map[]) else
      var init, tx := txs[..|txs| - 1], txs[|txs| - 1];
      match Replay(init)
      case None => None
      case Some(ledger) => if Accepts(init, ledger, tx) then Some(Update(ledger, tx)) else None
  }

  lemma ReplayOne(txs: seq<UTXOTransaction>, ledger: Ledger, tx: UTXOTransaction)
    requires Replay(txs) == Some(ledger) && Accepts(txs, ledger, tx)
    ensures Replay(txs + [tx]) == Some(Update(ledger, tx))
  {
    assert (txs + [tx])[..|txs|] == txs;
  }

  /** Unspent outputs are outputs of listed transactions. */
  ghost predicate FromHistory(txs: seq<UTXOTransaction>, ledger: Ledger) {
    forall op :: op in ledger ==>
      op.txId in txs && 0 <= op.index < |Vout(op.txId)| && ledger[op] == Vout(op.txId)[op.index]
  }

  /** What a listed transaction spent is an output of a listed transaction and is gone for good. */
  ghost predicate InputsGone(txs: seq<UTXOTransaction>, ledger: Ledger) {
    forall tx, i :: tx in txs && i in Vin(tx) ==> i.prevTxId in txs && Ref(i) !in ledger
  }

  ghost predicate AllDistinct(txs: seq<UTXOTransaction>) {
    forall p, q :: 0 <= p < q < |txs| ==> txs[p] != txs[q]
  }

  lemma {:induction false} ReplayFacts(txs: seq<UTXOTransaction>)
    requires Replay(txs).Some?
    ensures FromHistory(txs, Replay(txs).value)
    ensures InputsGone(txs, Replay(txs).value)
    ensures AllDistinct(txs)
  {
    if txs != [] {
      var init, tx := txs[..|txs| - 1], txs[|txs| - 1];
      ReplayFacts(init);
      assert txs == init + [tx];
      NewIsNew(init, Replay(init).value, tx);
      FactsStep(init, Replay(init).value, tx);
    }
  }

  /** No accepted transaction was there before. */
  lemma NewIsNew(txs: seq<UTXOTransaction>, ledger: Ledger, tx: UTXOTransaction)
    requires InputsGone(txs, ledger) && Accepts(txs, ledger, tx)
    ensures tx !in txs
  {
    if tx.Transfer? {
      assert tx.vin[0] in Vin(tx);
    }
  }

  lemma FactsStep(txs: seq<UTXOTransaction>, ledger: Ledger, tx: UTXOTransaction)
    requires FromHistory(txs, ledger) && InputsGone(txs, ledger) && Accepts(txs, ledger, tx) && tx !in txs
    ensures FromHistory(txs + [tx], Update(ledger, tx))
    ensures InputsGone(txs + [tx], Update(ledger, tx))
  {
    var all, next := txs + [tx], Update(ledger, tx);
    forall t, i | t in all && i in Vin(t) ensures i.prevTxId in all && Ref(i) !in next {
      if t in txs {
        assert i.prevTxId in txs && Ref(i) !in ledger;
      } else {
        assert Ref(i) in ledger && Ref(i) in Spent(tx);
      }
    }
  }

  lemma {:induction false} PrefixAccepted(txs: seq<UTXOTransaction>, q: nat)
    requires Replay(txs).Some? && q < |txs|
    ensures Replay(txs[..q]).Some? && Accepts(txs[..q], Replay(txs[..q]).value, txs[q])
  {
    if q < |txs| - 1 {
      var init := txs[..|txs| - 1];
      PrefixAccepted(init, q);
      assert init[..q] == txs[..q];
    }
  }

  lemma PrefixReplays(txs: seq<UTXOTransaction>, q: nat)
    requires Replay(txs).Some? && q <= |txs|
    ensures Replay(txs[..q]).Some?
  {
    if q < |txs| {
      PrefixAccepted(txs, q);
    } else {
      assert txs[..q] == txs;
    }
  }

  /** No outpoint is spent by two transactions of a history the ledger accepts. */
  lemma NoDoubleSpend(txs: seq<UTXOTransaction>, p: nat, q: nat, i: TxIn, j: TxIn)
    requires Replay(txs).Some? && p < q < |txs| && i in Vin(txs[p]) && j in Vin(txs[q])
    ensures Ref(i) != Ref(j)
  {
    PrefixAccepted(txs, q);
    ReplayFacts(txs[..q]);
    assert txs[p] == txs[..q][p];
  }

  /** The value that coinbase transactions brought in. */
  function Minted(txs: seq<UTXOTransaction>): nat {
    if txs == [] then 0 else
      var tx := txs[|txs| - 1];
      Minted(txs[..|txs| - 1]) + if tx.Coinbase? then tx.out.value else 0
  }

  // ---------------------------------------------------------------- sums over maps

  ghost function Sum<K>(m: map<K, nat>): nat {
    if m == map[] then 0 else
      var k :| k in m;
      m[k] + Sum(m - {k})
  }

  lemma {:induction false} SumOut<K>(m: map<K, nat>, k: K)
    requires k in m
    ensures Sum(m) == m[k] + Sum(m - {k})
    decreases |m|
  {
    var k0 :| k0 in m && Sum(m) == m[k0] + Sum(m - {k0});
    if k0 != k {
      SumOut(m - {k0}, k);
      SumOut(m - {k}, k0);
      assert m - {k0} - {k} == m - {k} - {k0};
    }
  }

  lemma SumSet<K>(m: map<K, nat>, k: K, v: nat)
    ensures Sum(m[k := v]) == Sum(m - {k}) + v
  {
    SumOut(m[k := v], k);
    assert m[k := v] - {k} == m - {k};
  }

  // ---------------------------------------------------------------- accounts

  /** The outputs of one owner, by transaction and index. */
  type Utxos = map<TxId, map<int, nat>>

  datatype UTXOAccountState = UTXOAccountState(balance: int, utxos: Utxos)

  type Trie = map<PubKeyHash, UTXOAccountState>

  predicate Has(u: Utxos, op: Outpoint, v: nat) {
    op.txId in u && op.index in u[op.txId] && u[op.txId][op.index] == v
  }

  predicate Entry(trie: Trie, owner: PubKeyHash, op: Outpoint, v: nat) {
    owner in trie && Has(trie[owner].utxos, op, v)
  }

  ghost function Totals(u: Utxos): map<TxId, nat> {
    map t | t in u :: Sum(u[t])
  }

  ghost function Total(u: Utxos): nat {
    Sum(Totals(u))
  }

  lemma TotalOut(u: Utxos, t: TxId)
    requires t in u
    ensures Total(u) == Sum(u[t]) + Total(u - {t})
  {
    SumOut(Totals(u), t);
    assert Totals(u) - {t} == Totals(u - {t});
  }

  lemma TotalSet(u: Utxos, t: TxId, m: map<int, nat>)
    ensures Total(u[t := m]) == Total(u - {t}) + Sum(m)
  {
    TotalOut(u[t := m], t);
    assert u[t := m] - {t} == u - {t};
  }

  /** The cached balance is the sum of the stored outputs, and no transaction is listed without outputs. */
  ghost predicate AccountOk(s: UTXOAccountState) {
    s.balance == Total(s.utxos) && forall t :: t in s.utxos ==> s.utxos[t] != map[]
  }

  ghost predicate AccountsOk(trie: Trie) {
    forall o :: o in trie ==> AccountOk(trie[o])
  }

  ghost function Worths(trie: Trie): map<PubKeyHash, nat> {
    map o | o in trie :: Total(trie[o].utxos)
  }

  /** The value of everything the trie stores. */
  ghost function Worth(trie: Trie): nat {
    Sum(Worths(trie))
  }

  ghost function WorthOf(trie: Trie, owner: PubKeyHash): nat {
    if owner in trie then Total(trie[owner].utxos) else 0
  }

  lemma WorthSet(trie: Trie, owner: PubKeyHash, s: UTXOAccountState)
    ensures Worth(trie[owner := s]) + WorthOf(trie, owner) == Worth(trie) + Total(s.utxos)
  {
    var w := Worths(trie);
    assert Worths(trie[owner := s]) == w[owner := Total(s.utxos)];
    SumSet(w, owner, Total(s.utxos));
    if owner in trie {
      SumOut(w, owner);
    } else {
      assert w - {owner} == w;
    }
  }

  // ---------------------------------------------------------------- trie and ledger

  /** The ledger is the trie, grouped by owner, and the lost outputs. */
  ghost predicate Refines(trie: Trie, lost: Ledger, ledger: Ledger) {
    && (forall o, op, v :: Entry(trie, o, op, v) <==> op in ledger && op !in lost && ledger[op] == TxOut(v, o))
    && (forall op :: op in lost ==> op in ledger && lost[op] == ledger[op] && lost[op].value == 0)
  }

  /** The trie is the ledger grouped by owner. */
  ghost predicate Exact(trie: Trie, ledger: Ledger) {
    forall o, op, v :: Entry(trie, o, op, v) <==> op in ledger && ledger[op] == TxOut(v, o)
  }

  lemma ExactMeansNothingLost(trie: Trie, lost: Ledger, ledger: Ledger)
    requires Refines(trie, lost, ledger)
    ensures Exact(trie, ledger) <==> lost == map[]
  {
    if lost != map[] {
      var op :| op in lost;
      assert !Entry(trie, ledger[op].pubKeyHash, op, ledger[op].value);
    }
  }

  /** `next` is `trie` without these outputs of one owner. */
  ghost predicate TakenOut(trie: Trie, next: Trie, owner: PubKeyHash, taken: set<Outpoint>) {
    forall o, op, v :: Entry(next, o, op, v) <==> Entry(trie, o, op, v) && !(o == owner && op in taken)
  }
}
