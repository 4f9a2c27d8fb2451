/** The whole system in account mode with CLPA: the supervisor, one leader per shard and the network. */
module ReshardingSystem {
  import opened Placement
  import opened Transfers
  import opened LeaderSpec

  /** Messages in flight.  `epoch` on an injection is history: the number of partition rounds published
      when the supervisor routed it. */
  datatype Msg =
    | Relay(from: int, to: int, seqId: nat, txs: seq<Tx>)
    | Ready(from: int, to: int, seqId: nat)
    | Accounts(from: int, to: int, parcel: Parcel)
    | Inject(to: int, txs: seq<Tx>, epoch: nat)
    | Publish(to: int, delta: map<Addr, int>)

  /** The number of shards, the default placement, and the accounts there are, each listed once. */
  datatype Config = Config(shards: nat, addr2Shard: Addr -> int, accounts: seq<Addr>) {
    ghost predicate Valid() {
      && shards > 0
      && (forall a :: 0 <= addr2Shard(a) < shards)
      && (forall p, q :: 0 <= p < q < |accounts| ==> accounts[p] != accounts[q])
    }
  }

  /** `modifiedMap` is the supervisor's map of overrides; `epoch` counts the rounds it published.  The
      rest is history: the overrides before the last round and its delta, the transfers injected and
      executed so far, and the value relayed by transfers whose deduction was refused. */
  datatype Sys = Sys(
    leaders: seq<Leader>,
    net: seq<Msg>,
    modifiedMap: map<Addr, int>,
    epoch: nat,
    base: map<Addr, int>,
    delta: map<Addr, int>,
    injected: seq<Tx>,
    executed: seq<Tx>,
    forged: int)

  function Init(c: Config): Sys {
    Sys(seq(c.shards, _ => NewLeader()), [], map[], 0, map[], map[], [], [], 0)
  }

  /** What can happen next; the comments name the code that runs. */
  datatype Event =
    | InjectTxs(shard: int, txs: seq<Tx>)         // txSending, committee_clpa.go:71-100
    | PublishRound(delta: map<Addr, int>)         // TxHandling, committee_clpa.go:140-147
    | Deliver(k: nat)                             // handleMessage on a leader
    | Propose(shard: int, blockSize: nat)         // HandleinPropose, a block
    | Commit(shard: int)                          // HandleinCommit, a block
    | Announce(shard: int)                        // HandleinPropose, sendPartitionReady
    | Pass(shard: int)                            // getPartitionReady holds, sendAccounts_and_Txs
    | ProposeRound(shard: int, order: seq<int>)   // getCollectOver holds, proposePartition
    | CommitRound(shard: int)                     // HandleinCommit, a partition request

  /** Two messages that the network does not reorder: relays of one shard to another, and what the
      supervisor sends to one shard. */
  predicate SameChannel(m: Msg, n: Msg) {
    match (m, n)
    case (Relay(i, j, _, _), Relay(i', j', _, _)) => i == i' && j == j'
    case (Inject(j, _, _), Inject(j', _, _)) => j == j'
    case (Inject(j, _, _), Publish(j', _)) => j == j'
    case (Publish(j, _), Inject(j', _, _)) => j == j'
    case (Publish(j, _), Publish(j', _)) => j == j'
    case _ => false
  }

  ghost predicate FirstInChannel(net: seq<Msg>, k: nat)
    requires k < |net|
  {
    forall p :: 0 <= p < k ==> !SameChannel(net[p], net[k])
  }

  function H(c: Config, s: Sys, i: int): Where
    requires 0 <= i < |s.leaders|
  {
    At(i, s.leaders[i], c.addr2Shard)
  }

  ghost predicate Known(c: Config, tx: Tx) {
    tx.sender in c.accounts && tx.recipient in c.accounts
  }

  /** The supervisor starts a round only when every shard has committed the last one. */
  ghost predicate AllDone(s: Sys) {
    forall i :: 0 <= i < |s.leaders| ==> s.leaders[i].round == s.epoch
  }

  ghost predicate Enabled(c: Config, s: Sys, e: Event) {
    match e
    case InjectTxs(i, txs) =>
      0 <= i < |s.leaders|
      && forall tx :: tx in txs ==> !tx.relayed && Known(c, tx) && Lookup(s.modifiedMap, c.addr2Shard, tx.sender) == i
    case PublishRound(delta) =>
      AllDone(s) && forall a :: a in delta ==> 0 <= delta[a] < c.shards
    case Deliver(k) =>
      k < |s.net| && 0 <= s.net[k].to < |s.leaders| && FirstInChannel(s.net, k)
    case Propose(i, _) =>
      0 <= i < |s.leaders| && s.leaders[i].phase.Idle? && !s.leaders[i].partitionOn
    case Commit(i) =>
      0 <= i < |s.leaders| && s.leaders[i].phase.Proposed?
    case Announce(i) =>
      0 <= i < |s.leaders| && s.leaders[i].phase.Idle? && s.leaders[i].partitionOn
    case Pass(i) =>
      0 <= i < |s.leaders| && s.leaders[i].phase.Waiting? && BarrierOpen(s.leaders[i], c.shards)
    case ProposeRound(i, order) =>
      0 <= i < |s.leaders| && s.leaders[i].phase.Collecting? && s.leaders[i].collectOver
      && Reads(order, s.leaders[i].parcels)
    case CommitRound(i) =>
      0 <= i < |s.leaders| && s.leaders[i].phase.Committing?
  }

  /** Delivery of one message to its leader. */
  function Receive(c: Config, l: Leader, m: Msg): Leader {
    match m
    case Relay(from, _, q, txs) => HandleRelay(l, from, q, txs)
    case Ready(from, _, q) => HandlePartitionReady(l, from, q)
    case Accounts(from, _, p) => HandleParcel(l, from, p, c.shards)
    case Inject(_, txs, _) => HandleInject(l, txs)
    case Publish(_, delta) => HandlePartitionMsg(l, delta)
  }

  function Without(net: seq<Msg>, k: nat): seq<Msg>
    requires k < |net|
  {
    net[..k] + net[k + 1..]
  }

  /** One message to every shard below `n` but the sender. */
  function Relays(h: Where, body: seq<Tx>, seqId: nat, n: nat): seq<Msg> {
    if n == 0 then [] else
      Relays(h, body, seqId, n - 1)
      + if n - 1 == h.me then [] else [Relay(h.me, n - 1, seqId, h.RelayTo(n - 1, body))]
  }

  function Readies(me: int, seqId: nat, n: nat): seq<Msg> {
    if n == 0 then [] else
      Readies(me, seqId, n - 1) + if n - 1 == me then [] else [Ready(me, n - 1, seqId)]
  }

  function Parcels(l: Leader, h: Where, n: nat): seq<Msg> {
    if n == 0 then [] else
      Parcels(l, h, n - 1) + if n - 1 == h.me then [] else [Accounts(h.me, n - 1, ParcelFor(l, h, n - 1))]
  }

  function Publishes(delta: map<Addr, int>, n: nat): seq<Msg> {
    if n == 0 then [] else Publishes(delta, n - 1) + [Publish(n - 1, delta)]
  }

  ghost function Next(c: Config, s: Sys, e: Event): Sys
    requires Enabled(c, s, e)
  {
    match e
    case InjectTxs(i, txs) =>
      s.(net := s.net + [Inject(i, txs, s.epoch)], injected := s.injected + txs)
    case PublishRound(delta) =>
      s.(net := s.net + Publishes(delta, |s.leaders|), epoch := s.epoch + 1,
         base := s.modifiedMap, delta := delta, modifiedMap := s.modifiedMap + delta)
    case Deliver(k) =>
      var m := s.net[k];
      s.(leaders := s.leaders[m.to := Receive(c, s.leaders[m.to], m)], net := Without(s.net, k))
    case Propose(i, blockSize) =>
      s.(leaders := s.leaders[i := ProposeBlock(s.leaders[i], H(c, s, i), blockSize)])
    case Commit(i) =>
      var l := s.leaders[i];
      s.(leaders := s.leaders[i := CommitBlock(l)],
         net := s.net + Relays(H(c, s, i), l.phase.body, l.sequenceID, |s.leaders|),
         executed := s.executed + H(c, s, i).Executed(l.phase.body),
         forged := s.forged + H(c, s, i).Forged(l.trie, l.phase.body))
    case Announce(i) =>
      s.(leaders := s.leaders[i := AnnounceReady(s.leaders[i], i)],
         net := s.net + Readies(i, s.leaders[i].sequenceID, |s.leaders|))
    case Pass(i) =>
      s.(leaders := s.leaders[i := SendParcels(s.leaders[i], H(c, s, i), |s.leaders|)],
         net := s.net + Parcels(s.leaders[i], H(c, s, i), |s.leaders|))
    case ProposeRound(i, order) =>
      s.(leaders := s.leaders[i := ProposePartition(s.leaders[i], order)])
    case CommitRound(i) =>
      s.(leaders := s.leaders[i := CommitPartition(s.leaders[i], i, c.addr2Shard)])
  }

  /** The side condition that the barrier needs and the code does not check: from every other shard at
      least one relay has been received, unless the sequence id that shard announced shows that it never
      committed a block. */
  ghost predicate Heard(c: Config, l: Leader, me: int) {
    forall j :: 0 <= j < c.shards && j != me ==>
      j in l.seqIDMap || (j in l.readySeq && l.readySeq[j] == 1 + l.round)
  }

  /** A run; `heard` asks for the side condition whenever a shard passes the barrier. */
  ghost predicate Run(c: Config, s: Sys, es: seq<Event>, t: Sys, heard: bool)
    decreases |es|
  {
    if es == [] then s == t else
      var e := es[0];
      && Enabled(c, s, e)
      && (heard && e.Pass? ==> Heard(c, s.leaders[e.shard], e.shard))
      && Run(c, Next(c, s, e), es[1..], t, heard)
  }
}
