/** The invariant of the re-sharding protocol and the proof that every event keeps it. */
module ReshardingInvariant {
  import opened Placement
  import opened Transfers
  import opened LeaderSpec
  import opened ReshardingSystem

  /** What all parts of the invariant need to know about the current partition round. */
  datatype Round = Round(shards: nat, addr2Shard: Addr -> int, accounts: seq<Addr>,
                         epoch: nat, base: map<Addr, int>, next: map<Addr, int>, delta: map<Addr, int>) {
    /** The home of an account before and after the round. */
    function Old(a: Addr): int { Lookup(base, addr2Shard, a) }
    function New(a: Addr): int { Lookup(next, addr2Shard, a) }

    predicate Known(tx: Tx) { tx.sender in accounts && tx.recipient in accounts }

    /** The shard has committed the round. */
    predicate Done(l: Leader) { l.round == epoch }

    /** The shard has handed its accounts over, and no longer splits its pool. */
    predicate Handed(l: Leader) { l.phase.Collecting? || l.phase.Committing? || Done(l) }

    /** Where the shard sees an account. */
    function Sees(l: Leader, a: Addr): int { if Done(l) then New(a) else Old(a) }

    ghost predicate Valid() {
      && shards > 0
      && next == base + delta
      && (forall a :: 0 <= addr2Shard(a) < shards)
      && (forall a :: a in base ==> 0 <= base[a] < shards)
      && (forall a :: a in delta ==> 0 <= delta[a] < shards)
      && (epoch == 0 ==> delta == map[])
    }
  }

  function R(c: Config, s: Sys): Round {
    Round(c.shards, c.addr2Shard, c.accounts, s.epoch, s.base, s.modifiedMap, s.delta)
  }

  predicate InRound(l: Leader) {
    l.phase.Waiting? || l.phase.Collecting? || l.phase.Committing?
  }

  ghost predicate AllShards(ready: set<int>, n: nat) {
    forall j :: j in ready <==> 0 <= j < n
  }

  ghost predicate Others(keys: set<int>, me: int, n: nat) {
    forall j :: j in keys <==> 0 <= j < n && j != me
  }

  // ---------------------------------------------------------------- one leader

  /** Counters and flags. */
  ghost predicate CountersOk(r: Round, i: int, l: Leader) {
    && l.round <= |l.modifiedMap| <= r.epoch <= l.round + 1
    && (l.partitionOn <==> l.round < |l.modifiedMap|)
    && (|l.modifiedMap| == r.epoch && r.epoch > 0 ==> l.modifiedMap[r.epoch - 1] == r.delta)
    && l.pmap == (if r.Done(l) then r.next else r.base)
    && l.sequenceID >= 1 + l.round
    && (forall j :: j in l.seqIDMap ==> 0 <= j < r.shards && j != i)
  }

  /** The round so far. */
  ghost predicate RoundOk(r: Round, i: int, l: Leader) {
    && (InRound(l) ==> l.partitionOn)
    && (i in l.partitionReady <==> InRound(l))
    && (forall j :: j in l.partitionReady ==> 0 <= j < r.shards)
    && (l.phase.Collecting? || l.phase.Committing? ==> AllShards(l.partitionReady, r.shards))
    && (r.Done(l) ==> l.partitionReady == {} && l.parcels == map[] && !l.collectOver)
    && (forall j :: j in l.parcels ==> 0 <= j < r.shards && j != i)
    && (l.collectOver ==> Others(l.parcels.Keys, i, r.shards))
    && (l.phase.Committing? ==>
          l.phase.atm.delta == r.delta && l.phase.atm.atId == r.epoch
          && Others(l.parcels.Keys, i, r.shards) && Gathered(l.parcels, l.phase.atm.accounts))
  }

  /** A partition request carries exactly the accounts of the parcels. */
  ghost predicate Gathered(parcels: map<int, Parcel>, accounts: Trie) {
    && (forall j, a :: j in parcels && a in parcels[j].accounts ==>
          a in accounts && accounts[a] == parcels[j].accounts[a])
    && (forall a :: a in accounts ==> exists j :: j in parcels && a in parcels[j].accounts)
  }

  /** A transfer may wait in this pool. */
  predicate PoolRoute(r: Round, i: int, l: Leader, tx: Tx) {
    && r.Known(tx)
    && if r.Handed(l) then r.New(Key(tx)) == i
       else r.Old(Key(tx)) == i || (l.partitionOn && r.New(Key(tx)) == i)
  }

  ghost predicate TransfersOk(r: Round, i: int, l: Leader) {
    && (forall tx :: tx in l.pool ==> PoolRoute(r, i, l, tx))
    && (l.phase.Proposed? ==>
          && (forall tx :: tx in l.phase.body ==> r.Known(tx) && r.Sees(l, Key(tx)) == i)
          && l.phase.root == At(i, l, r.addr2Shard).ApplyAll(l.trie, l.phase.body))
  }

  ghost predicate LeaderOk(r: Round, i: int, l: Leader) {
    CountersOk(r, i, l) && RoundOk(r, i, l) && TransfersOk(r, i, l)
  }

  // ---------------------------------------------------------------- two leaders

  /** A parcel from shard `j` to shard `i`: the accounts moving between them with their balances at `j`,
      and transfers whose key moves to `i`. */
  ghost predicate ParcelOk(r: Round, j: int, trie: Trie, i: int, p: Parcel) {
    && (forall a :: a in p.accounts <==> a in r.delta && r.delta[a] == i && r.Old(a) == j)
    && (forall a :: a in p.accounts ==> p.accounts[a] == Balance(trie, a))
    && (forall tx :: tx in p.txs ==> r.Known(tx) && Key(tx) in r.delta && r.delta[Key(tx)] == i)
  }

  /** What shard `i` knows about shard `j`. */
  ghost predicate PairOk(r: Round, i: int, li: Leader, j: int, lj: Leader) {
    && (r.Done(lj) ==> r.Handed(li))
    && (j in li.partitionReady && !r.Done(lj) ==> InRound(lj) && j in li.readySeq && li.readySeq[j] == lj.sequenceID)
    && (j in li.seqIDMap ==> li.seqIDMap[j] < lj.sequenceID && lj.sequenceID > 1 + lj.round)
    && (j in li.parcels ==> r.Handed(lj) && ParcelOk(r, j, lj.trie, i, li.parcels[j]))
  }

  // ---------------------------------------------------------------- messages

  predicate RelayedRoute(r: Round, i: int, li: Leader, tx: Tx) {
    tx.relayed && r.Known(tx) && (if r.Handed(li) then r.New(tx.recipient) else r.Old(tx.recipient)) == i
  }

  predicate InjectedRoute(r: Round, i: int, epoch: nat, tx: Tx) {
    !tx.relayed && r.Known(tx) && (if epoch == r.epoch then r.New(tx.sender) else r.Old(tx.sender)) == i
  }

  ghost predicate RelayOk(r: Round, j: int, lj: Leader, i: int, li: Leader, q: nat, txs: seq<Tx>) {
    && q < lj.sequenceID && lj.sequenceID > 1 + lj.round
    && (j in li.seqIDMap ==> li.seqIDMap[j] < q)
    && (forall tx :: tx in txs ==> RelayedRoute(r, i, li, tx))
  }

  ghost predicate ReadyOk(r: Round, j: int, lj: Leader, i: int, li: Leader, q: nat) {
    j !in li.partitionReady && InRound(lj) && q == lj.sequenceID && !r.Done(li)
  }

  ghost predicate AccountsOk(r: Round, j: int, lj: Leader, i: int, li: Leader, p: Parcel) {
    r.Handed(lj) && !r.Done(li) && j !in li.parcels && ParcelOk(r, j, lj.trie, i, p)
  }

  ghost predicate InjectOk(r: Round, i: int, li: Leader, txs: seq<Tx>, epoch: nat) {
    && (epoch == r.epoch || (epoch + 1 == r.epoch && |li.modifiedMap| == epoch))
    && (forall tx :: tx in txs ==> InjectedRoute(r, i, epoch, tx))
  }

  ghost predicate PublishOk(r: Round, i: int, li: Leader, delta: map<Addr, int>) {
    delta == r.delta && |li.modifiedMap| + 1 == r.epoch
  }

  ghost predicate Between(ls: seq<Leader>, j: int, i: int) {
    0 <= j < |ls| && 0 <= i < |ls| && j != i
  }

  ghost predicate MsgOk(r: Round, ls: seq<Leader>, m: Msg) {
    match m
    case Relay(j, i, q, txs) => Between(ls, j, i) && RelayOk(r, j, ls[j], i, ls[i], q, txs)
    case Ready(j, i, q) => Between(ls, j, i) && ReadyOk(r, j, ls[j], i, ls[i], q)
    case Accounts(j, i, p) => Between(ls, j, i) && AccountsOk(r, j, ls[j], i, ls[i], p)
    case Inject(i, txs, epoch) => 0 <= i < |ls| && InjectOk(r, i, ls[i], txs, epoch)
    case Publish(i, delta) => 0 <= i < |ls| && PublishOk(r, i, ls[i], delta)
  }

  /** A message `m` sent before `n` and both in flight. */
  predicate OrderOk(epoch: nat, m: Msg, n: Msg) {
    match (m, n)
    case (Relay(j, i, q, _), Relay(j', i', q', _)) => j == j' && i == i' ==> q < q'
    case (Ready(j, i, _), Ready(j', i', _)) => !(j == j' && i == i')
    case (Accounts(j, i, _), Accounts(j', i', _)) => !(j == j' && i == i')
    case (Inject(i, _, e), Publish(i', _)) => i == i' ==> e + 1 == epoch
    case (Publish(i, _), Inject(i', _, e)) => i == i' ==> e == epoch
    case (Publish(i, _), Publish(i', _)) => i != i'
    case _ => true
  }

  // ---------------------------------------------------------------- the invariant

  ghost predicate LeadersOk(r: Round, ls: seq<Leader>) {
    forall i :: 0 <= i < |ls| ==> LeaderOk(r, i, ls[i])
  }

  ghost predicate PairsOk(r: Round, ls: seq<Leader>) {
    forall i, j :: 0 <= i < |ls| && 0 <= j < |ls| && i != j ==> PairOk(r, i, ls[i], j, ls[j])
  }

  ghost predicate MsgsOk(r: Round, ls: seq<Leader>, net: seq<Msg>) {
    forall k :: 0 <= k < |net| ==> MsgOk(r, ls, net[k])
  }

  ghost predicate Ordered(epoch: nat, net: seq<Msg>) {
    forall p, q :: 0 <= p < q < |net| ==> OrderOk(epoch, net[p], net[q])
  }

  /** No relay from `j` to `i` is in flight. */
  ghost predicate LinkEmpty(net: seq<Msg>, j: int, i: int) {
    forall k :: 0 <= k < |net| ==> !(net[k].Relay? && net[k].from == j && net[k].to == i)
  }

  /** A shard of which nothing was ever received and nothing is under way never committed a block. */
  ghost predicate Unheard(ls: seq<Leader>, net: seq<Msg>, i: int, j: int)
    requires 0 <= i < |ls| && 0 <= j < |ls|
  {
    j !in ls[i].seqIDMap && LinkEmpty(net, j, i) ==> ls[j].sequenceID == 1 + ls[j].round
  }

  ghost predicate UnheardOk(ls: seq<Leader>, net: seq<Msg>) {
    forall i, j :: 0 <= i < |ls| && 0 <= j < |ls| && i != j ==> Unheard(ls, net, i, j)
  }

  /** A shard that has not seen the round's delta will still receive it. */
  ghost predicate PendingOk(r: Round, ls: seq<Leader>, net: seq<Msg>) {
    forall i :: 0 <= i < |ls| && |ls[i].modifiedMap| < r.epoch ==> exists k :: 0 <= k < |net| && net[k] == Publish(i, r.delta)
  }

  ghost predicate Inv(c: Config, s: Sys) {
    var r := R(c, s);
    && c.Valid() && r.Valid() && |s.leaders| == c.shards
    && LeadersOk(r, s.leaders)
    && PairsOk(r, s.leaders)
    && MsgsOk(r, s.leaders, s.net)
    && Ordered(s.epoch, s.net)
    && UnheardOk(s.leaders, s.net)
    && PendingOk(r, s.leaders, s.net)
  }

  lemma InitInv(c: Config)
    requires c.Valid()
    ensures Inv(c, Init(c))
  {
    var s := Init(c);
    assert s.modifiedMap == s.base + s.delta;
  }

  // ---------------------------------------------------------------- the barrier

  lemma {:induction false} FullSet(n: nat, ready: set<int>)
    requires forall j :: j in ready ==> 0 <= j < n
    ensures |ready| <= n
    ensures |ready| == n ==> forall j :: 0 <= j < n ==> j in ready
    decreases n
  {
    if n == 0 {
      assert forall j :: j !in ready;
      assert ready == {};
    } else {
      var last := n - 1;
      var rest := ready - {last};
      FullSet(last, rest);
      if last in ready {
        assert |ready| == |rest| + 1;
        forall j | 0 <= j < n && |ready| == n ensures j in ready {
          assert j == last || j in rest;
        }
      } else {
        assert ready == rest;
      }
    }
  }

  lemma FullButMe(n: nat, me: int, keys: set<int>)
    requires 0 <= me < n
    requires forall j :: j in keys ==> 0 <= j < n && j != me
    ensures |keys| == n - 1 ==> Others(keys, me, n)
  {
    FullSet(n, keys + {me});
    assert |keys + {me}| == |keys| + 1;
  }

  /** When the barrier opens at shard `i`, every shard has announced readiness for this very round, stands
      between that announcement and its own commit, and announced its present sequence id. */
  lemma BarrierAgrees(c: Config, s: Sys, i: int, j: int)
    requires Inv(c, s) && 0 <= i < c.shards && s.leaders[i].phase.Waiting?
    requires BarrierOpen(s.leaders[i], c.shards)
    requires 0 <= j < c.shards && j != i
    ensures AllShards(s.leaders[i].partitionReady, c.shards)
    ensures InRound(s.leaders[j]) && s.leaders[j].round + 1 == s.epoch
    ensures j in s.leaders[i].readySeq && s.leaders[i].readySeq[j] == s.leaders[j].sequenceID
  {
    var r, li, lj := R(c, s), s.leaders[i], s.leaders[j];
    assert LeaderOk(r, i, li) && LeaderOk(r, j, lj);
    FullSet(c.shards, li.partitionReady);
    assert PairOk(r, i, li, j, lj);
  }

  /** The barrier does what it is for exactly when the side condition holds: given that getPartitionReady
      returns true at shard `i`, every relay ever sent to `i` has been delivered if and only if from each
      other shard some relay was received or that shard's announced sequence id shows it sent none. */
  lemma BarrierExact(c: Config, s: Sys, i: int)
    requires Inv(c, s) && 0 <= i < c.shards && s.leaders[i].phase.Waiting?
    requires BarrierOpen(s.leaders[i], c.shards)
    ensures Heard(c, s.leaders[i], i) <==> forall j :: 0 <= j < c.shards && j != i ==> LinkEmpty(s.net, j, i)
  {
    forall j | 0 <= j < c.shards && j != i
      ensures LinkEmpty(s.net, j, i) <==>
                j in s.leaders[i].seqIDMap
                || (j in s.leaders[i].readySeq && s.leaders[i].readySeq[j] == 1 + s.leaders[i].round)
    {
      BarrierExactFor(c, s, i, j);
    }
  }

  lemma BarrierExactFor(c: Config, s: Sys, i: int, j: int)
    requires Inv(c, s) && 0 <= i < c.shards && s.leaders[i].phase.Waiting?
    requires BarrierOpen(s.leaders[i], c.shards)
    requires 0 <= j < c.shards && j != i
    ensures LinkEmpty(s.net, j, i) <==>
              j in s.leaders[i].seqIDMap
              || (j in s.leaders[i].readySeq && s.leaders[i].readySeq[j] == 1 + s.leaders[i].round)
  {
    var r, li, lj := R(c, s), s.leaders[i], s.leaders[j];
    BarrierAgrees(c, s, i, j);
    assert LeaderOk(r, i, li);
    assert Unheard(s.leaders, s.net, i, j);
    forall k | 0 <= k < |s.net| && s.net[k].Relay? && s.net[k].from == j && s.net[k].to == i
      ensures j !in li.seqIDMap && lj.sequenceID > 1 + lj.round
    {
      assert MsgOk(r, s.leaders, s.net[k]);
    }
  }
}
