/** Coin selection on one owner's account: the nested loops of FindSpendableOutputsFromStatusTrie
    (chain/utxo_set.go:292-323), for every order in which the nested maps can be read. */
module UtxoSelection {
  import opened UtxoLedger

  /** The outputs selected, by transaction: unspentOutputs. */
  type Chosen = map<TxId, seq<int>>

  predicate Listed(outs: Chosen, op: Outpoint) {
    op.txId in outs && op.index in outs[op.txId]
  }

  predicate Stored(u: Utxos, op: Outpoint) {
    op.txId in u && op.index in u[op.txId]
  }

  ghost predicate Distinct(ids: seq<int>) {
    forall p, q :: 0 <= p < q < |ids| ==> ids[p] != ids[q]
  }

  function ValueIn(txOut: map<int, nat>, i: int): nat {
    if i in txOut then txOut[i] else 0
  }

  function IdsValue(txOut: map<int, nat>, ids: seq<int>): nat {
    if ids == [] then 0 else IdsValue(txOut, ids[..|ids| - 1]) + ValueIn(txOut, ids[|ids| - 1])
  }

  function OutsOf(u: Utxos, t: TxId): map<int, nat> {
    if t in u then u[t] else map[]
  }

  ghost function Shares(u: Utxos, outs: Chosen): map<TxId, nat> {
    map t | t in outs :: IdsValue(OutsOf(u, t), outs[t])
  }

  /** What the selected outputs are worth. */
  ghost function ChosenValue(u: Utxos, outs: Chosen): nat {
    Sum(Shares(u, outs))
  }

  lemma ChosenOneMore(u: Utxos, outs: Chosen, t: TxId, ids: seq<int>)
    requires t !in outs
    ensures ChosenValue(u, outs[t := ids]) == ChosenValue(u, outs) + IdsValue(OutsOf(u, t), ids)
  {
    var s := Shares(u, outs);
    assert Shares(u, outs[t := ids]) == s[t := IdsValue(OutsOf(u, t), ids)];
    SumSet(s, t, IdsValue(OutsOf(u, t), ids));
    assert s - {t} == s;
  }

  lemma ChosenNone(u: Utxos)
    ensures ChosenValue(u, map[]) == 0
  {
    assert Shares(u, map[]) == map[];
  }

  lemma NoOutputs(m: map<int, nat>)
    ensures m.Keys == {} ==> m == map[]
    ensures (forall i :: i !in m) ==> m.Keys == {}
  {
    if forall i :: i !in m {
      assert m.Keys == {};
    }
  }

  lemma TakeOne(txOut: map<int, nat>, rest: map<int, nat>, ids: seq<int>, i: int)
    requires i in rest && i in txOut && rest[i] == txOut[i]
    ensures IdsValue(txOut, ids + [i]) == IdsValue(txOut, ids) + rest[i]
    ensures Sum(rest) == rest[i] + Sum(rest - {i})
  {
    assert (ids + [i])[..|ids|] == ids;
    SumOut(rest, i);
  }

  /** The inner loop: outputs of one transaction, until the total exceeds the amount. */
  method TakeOutputs(txOut: map<int, nat>, amount: nat, before: nat) returns (acc: nat, rest: map<int, nat>, ids: seq<int>)
    requires before <= amount
    ensures Distinct(ids) && (forall i :: i in ids <==> i in txOut && i !in rest)
    ensures forall i :: i in rest ==> i in txOut && rest[i] == txOut[i]
    ensures acc == before + IdsValue(txOut, ids) && IdsValue(txOut, ids) + Sum(rest) == Sum(txOut)
    ensures acc > amount || rest == map[]
    ensures txOut != map[] ==> ids != [] && acc - ValueIn(txOut, ids[|ids| - 1]) <= amount
  {
    acc, rest, ids := before, txOut, [];
    hide Sum, IdsValue;
    assert IdsValue(txOut, []) == 0 by {
      NoIds(txOut);
    }
    while rest.Keys != {} && acc <= amount
      invariant Distinct(ids) && forall i :: i in ids <==> i in txOut && i !in rest
      invariant forall i :: i in rest ==> i in txOut && rest[i] == txOut[i]
      invariant acc == before + IdsValue(txOut, ids) && IdsValue(txOut, ids) + Sum(rest) == Sum(txOut)
      invariant ids == [] ==> rest == txOut && acc == before
      invariant ids != [] ==> acc - ValueIn(txOut, ids[|ids| - 1]) <= amount
      decreases |rest|
    {
      NoOutputs(rest);
      var i :| i in rest.Keys;
      TakeOne(txOut, rest, ids, i);
      acc := acc + rest[i];
      ids := ids + [i];
      rest := rest - {i};
    }
    NoOutputs(rest);
  }

  lemma NoIds(txOut: map<int, nat>)
    ensures IdsValue(txOut, []) == 0
  {
  }

  /** How far the outer loop is: `u` is what is left of `u0`, `todo` are the transactions not yet visited. */
  ghost predicate Selecting(u0: Utxos, u: Utxos, todo: set<TxId>, outs: Chosen) {
    && (forall t :: t in todo ==> t in u0 && t in u && u[t] == u0[t] && t !in outs)
    && SplitOff(u0, u, outs)
    && (forall t :: t in u ==> u[t] != map[])
  }

  /** `u` is `u0` without the selected outputs, each of which is selected once. */
  ghost predicate SplitOff(u0: Utxos, u: Utxos, outs: Chosen) {
    && (forall op, v :: Has(u, op, v) <==> Has(u0, op, v) && !Listed(outs, op))
    && (forall op :: Listed(outs, op) ==> Stored(u0, op))
    && (forall t :: t in outs ==> outs[t] != [] && Distinct(outs[t]))
  }

  /** What remains of a transaction's outputs goes back, unless nothing remains. */
  function PutBack(u: Utxos, t: TxId, rest: map<int, nat>): Utxos {
    if rest == map[] then u - {t} else u[t := rest]
  }

  lemma SelectStep(u0: Utxos, u: Utxos, todo: set<TxId>, outs: Chosen, t: TxId, rest: map<int, nat>, ids: seq<int>)
    requires Selecting(u0, u, todo, outs) && t in todo
    requires ids != [] && Distinct(ids) && forall i :: i in ids <==> i in u0[t] && i !in rest
    requires forall i :: i in rest ==> i in u0[t] && rest[i] == u0[t][i]
    ensures Selecting(u0, PutBack(u, t, rest), todo - {t}, outs[t := ids])
  {
    var u', outs' := PutBack(u, t, rest), outs[t := ids];
    forall op, v ensures Has(u', op, v) <==> Has(u0, op, v) && !Listed(outs', op) {
      assert Has(u, op, v) <==> Has(u0, op, v) && !Listed(outs, op);
    }
  }

  lemma TotalStep(u0: Utxos, u: Utxos, outs: Chosen, t: TxId, rest: map<int, nat>, ids: seq<int>)
    requires t in u && t in u0 && u[t] == u0[t] && t !in outs
    requires IdsValue(u0[t], ids) + Sum(rest) == Sum(u0[t])
    requires Total(u) + ChosenValue(u0, outs) == Total(u0)
    ensures Total(PutBack(u, t, rest)) + ChosenValue(u0, outs[t := ids]) == Total(u0)
    ensures ChosenValue(u0, outs[t := ids]) == ChosenValue(u0, outs) + IdsValue(u0[t], ids)
  {
    ChosenOneMore(u0, outs, t, ids);
    TotalOut(u, t);
    if rest != map[] {
      TotalSet(u, t, rest);
    }
  }

  /** Without its output `last` the selection is worth at most the amount. */
  ghost predicate JustEnough(u: Utxos, outs: Chosen, acc: nat, amount: nat, last: Outpoint) {
    outs != map[] ==> Listed(outs, last) && acc - ValueIn(OutsOf(u, last.txId), last.index) <= amount
  }

  /** One iteration of the outer loop. */
  method VisitTx(u0: Utxos, u: Utxos, ghost todo: set<TxId>, outs: Chosen, txid: TxId, amount: nat, before: nat)
    returns (acc: nat, u': Utxos, outs': Chosen, ghost last: Outpoint)
    requires Selecting(u0, u, todo, outs) && txid in todo && before <= amount
    requires before == ChosenValue(u0, outs) && Total(u) + before == Total(u0)
    ensures Selecting(u0, u', todo - {txid}, outs')
    ensures acc == ChosenValue(u0, outs') && Total(u') + acc == Total(u0)
    ensures acc <= amount ==> u' == u - {txid}
    ensures outs'.Keys == outs.Keys + {txid} && JustEnough(u0, outs', acc, amount, last)
  {
    hide Total, ChosenValue, IdsValue, Sum;
    var rest, ids;
    acc, rest, ids := TakeOutputs(u[txid], amount, before);
    SelectStep(u0, u, todo, outs, txid, rest, ids);
    TotalStep(u0, u, outs, txid, rest, ids);
    u', outs' := PutBack(u, txid, rest), outs[txid := ids];
    last := Outpoint(txid, ids[|ids| - 1]);
  }

  lemma SelectStart(u: Utxos)
    requires forall t :: t in u ==> u[t] != map[]
    ensures Selecting(u, u, u.Keys, map[]) && ChosenValue(u, map[]) == 0
  {
    ChosenNone(u);
  }

  /** Selection on an account that holds at least the amount: what is selected is removed and nothing else,
      its value is taken off the balance, it reaches the amount and, but for its last output, not more. */
  method SelectOutputs(s: UTXOAccountState, amount: nat) returns (acc: nat, outs: Chosen, left: UTXOAccountState, ghost last: Outpoint)
    requires AccountOk(s) && s.balance >= amount
    ensures AccountOk(left) && left.balance == s.balance - acc
    ensures SplitOff(s.utxos, left.utxos, outs)
    ensures acc == ChosenValue(s.utxos, outs) && acc >= amount
    ensures acc > amount || left.utxos == map[]
    ensures JustEnough(s.utxos, outs, acc, amount, last)
    ensures outs == map[] ==> s.utxos == map[]
  {
    var u, todo := s.utxos, s.utxos.Keys;
    acc, outs := 0, map[];
    last := Outpoint(Coinbase(TxOut(0, Sha("")), 0), 0);
    SelectStart(s.utxos);
    hide Total, ChosenValue, JustEnough, Selecting, SplitOff;
    assert JustEnough(s.utxos, outs, acc, amount, last) by {
      NothingSelected(s.utxos, amount, last);
    }
    var balance := s.balance;
    while todo != {} && acc <= amount
      invariant Selecting(s.utxos, u, todo, outs)
      invariant acc <= amount ==> u.Keys == todo
      invariant acc == ChosenValue(s.utxos, outs) && Total(u) + acc == Total(s.utxos) && balance == s.balance - acc
      invariant JustEnough(s.utxos, outs, acc, amount, last)
      invariant outs == map[] ==> acc == 0 && todo == s.utxos.Keys
      decreases |todo|
    {
      var txid :| txid in todo;
      var before := acc;
      acc, u, outs, last := VisitTx(s.utxos, u, todo, outs, txid, amount, acc);
      todo := todo - {txid};
      balance := balance - (acc - before);
    }
    left := UTXOAccountState(balance, u);
    EmptyTotal(u);
    SelectEnd(s.utxos, u, todo, outs);
  }

  lemma NothingSelected(u: Utxos, amount: nat, last: Outpoint)
    ensures JustEnough(u, map[], 0, amount, last)
  {
  }

  lemma SelectEnd(u0: Utxos, u: Utxos, todo: set<TxId>, outs: Chosen)
    requires Selecting(u0, u, todo, outs)
    ensures SplitOff(u0, u, outs) && forall t :: t in u ==> u[t] != map[]
    ensures u.Keys == {} ==> u == map[]
  {
  }

  lemma EmptyTotal(u: Utxos)
    ensures u == map[] ==> Total(u) == 0
  {
    if u == map[] {
      assert Totals(u) == map[];
    }
  }
}
