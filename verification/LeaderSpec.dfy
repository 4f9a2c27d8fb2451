/** The leader of one shard in account mode with CLPA: its state as a value, and what each handler does to
    it.  The class in ShardLeader.dfy executes these handlers with loops and is proved against them.

    Sources: consensus_shard/pbft_all/pbftInside_moduleCLPA.go, pbftOutside_moduleCLPA.go,
    accountTransfer_module.go, dataSupport/clpaData_Extra.go, core/txpool.go, chain/blockchain.go. */
module LeaderSpec {
  import opened Placement
  import opened Transfers

  /** Accounts and pool transfers that one leader hands to another (AccountStateAndTx). */
  datatype Parcel = Parcel(accounts: Trie, txs: seq<Tx>)

  /** The partition request that a shard commits (AccountTransferMsg). */
  datatype TransferMsg = TransferMsg(delta: map<Addr, int>, accounts: Trie, atId: nat)

  /** Where the proposing loop of the leader stands.  The sequence lock is held from a proposal to its
      commit, so at most one of these is pending. */
  datatype Phase =
    | Idle
    | Proposed(body: seq<Tx>, root: Trie)  // a block is out; `root` is the trie its header names
    | Waiting                              // readiness announced, polling getPartitionReady
    | Collecting                           // accounts sent, polling getCollectOver
    | Committing(atm: TransferMsg)         // a partition request is out

  datatype Leader = Leader(
    pool: seq<Tx>,                    // Txpool.TxQueue
    trie: Trie,                       // the status trie at CurrentBlock
    pmap: map<Addr, int>,             // CurChain.PartitionMap
    sequenceID: nat,
    seqIDMap: map<int, nat>,          // SenderSeq of the last relay from each shard
    modifiedMap: seq<map<Addr, int>>,
    round: nat,                       // AccountTransferRound
    parcels: map<int, Parcel>,        // AccountStateTx
    partitionOn: bool,
    partitionReady: set<int>,
    readySeq: map<int, nat>,
    collectOver: bool,
    phase: Phase)

  /** What NewPbftNode and NewCLPADataSupport set up at genesis. */
  function NewLeader(): Leader {
    Leader([], map[], map[], 1, map[], [], 0, map[], false, {}, map[], false, Idle)
  }

  function At(me: int, l: Leader, addr2Shard: Addr -> int): Where {
    Where(me, l.pmap, addr2Shard)
  }

  // ---------------------------------------------------------------- messages from outside

  function HandleRelay(l: Leader, from: int, seqId: nat, txs: seq<Tx>): Leader {
    l.(pool := l.pool + txs, seqIDMap := l.seqIDMap[from := seqId])
  }

  function HandleInject(l: Leader, txs: seq<Tx>): Leader {
    l.(pool := l.pool + txs)
  }

  function HandlePartitionMsg(l: Leader, delta: map<Addr, int>): Leader {
    l.(modifiedMap := l.modifiedMap + [delta], partitionOn := true)
  }

  function HandlePartitionReady(l: Leader, from: int, seqId: nat): Leader {
    l.(partitionReady := l.partitionReady + {from}, readySeq := l.readySeq[from := seqId])
  }

  /** Collection is over when a parcel from every other shard is there. */
  function HandleParcel(l: Leader, from: int, p: Parcel, shards: nat): Leader {
    var parcels := l.parcels[from := p];
    l.(parcels := parcels, collectOver := l.collectOver || |parcels| == shards - 1)
  }

  // ---------------------------------------------------------------- blocks

  function Min(a: nat, b: nat): nat {
    if a < b then a else b
  }

  /** HandleinPropose without a pending partition: pack from the front of the pool, execute. */
  function ProposeBlock(l: Leader, h: Where, blockSize: nat): Leader {
    var n := Min(blockSize, |l.pool|);
    l.(pool := l.pool[n..], phase := Proposed(l.pool[..n], h.ApplyAll(l.trie, l.pool[..n])))
  }

  /** HandleinCommit for a block, then the sequence id moves on.  The relays sent carry the old one. */
  function CommitBlock(l: Leader): Leader
    requires l.phase.Proposed?
  {
    l.(trie := l.phase.root, sequenceID := l.sequenceID + 1, phase := Idle)
  }

  /** The panics of HandleinCommit: some transfer of the block is not this shard's to process. */
  predicate IncorrectTx(h: Where, body: seq<Tx>) {
    exists tx :: tx in body && h.Misrouted(tx)
  }

  // ---------------------------------------------------------------- re-sharding

  /** HandleinPropose with a pending partition: sendPartitionReady. */
  function AnnounceReady(l: Leader, me: int): Leader {
    l.(partitionReady := l.partitionReady + {me}, phase := Waiting)
  }

  /** getPartitionReady: as many ready shards as there are shards, and for every shard ever heard a relay
      from, the announced sequence id is one past that relay's. */
  predicate BarrierOpen(l: Leader, shards: nat) {
    && |l.partitionReady| == shards
    && forall j :: j in l.seqIDMap ==> j in l.readySeq && l.readySeq[j] == l.seqIDMap[j] + 1
  }

  function LastDelta(l: Leader): map<Addr, int> {
    if l.modifiedMap == [] then map[] else l.modifiedMap[|l.modifiedMap| - 1]
  }

  /** sendAccounts_and_Txs: what stays in the pool. */
  function SendParcels(l: Leader, h: Where, shards: nat): Leader {
    l.(pool := h.Kept(LastDelta(l), shards, l.pool), phase := Collecting)
  }

  /** sendAccounts_and_Txs: the parcel for shard `k`. */
  function ParcelFor(l: Leader, h: Where, k: int): Parcel {
    Parcel(h.Accounts(LastDelta(l), k, l.trie), h.Sent(LastDelta(l), k, l.pool))
  }

  /** The delta proposePartition works with: the one indexed by AccountTransferRound. */
  function RoundDelta(l: Leader): map<Addr, int> {
    if l.round < |l.modifiedMap| then l.modifiedMap[l.round] else map[]
  }

  /** The transfers of the parcels, concatenated in the order the parcel map is read. */
  function Collected(parcels: map<int, Parcel>, order: seq<int>): seq<Tx> {
    if order == [] then [] else
      var j := order[|order| - 1];
      Collected(parcels, order[..|order| - 1]) + if j in parcels then parcels[j].txs else []
  }

  /** The accounts of the parcels; a later parcel overrides an earlier one. */
  function CollectedAccounts(parcels: map<int, Parcel>, order: seq<int>): Trie {
    if order == [] then map[] else
      var j := order[|order| - 1];
      CollectedAccounts(parcels, order[..|order| - 1]) + if j in parcels then parcels[j].accounts else map[]
  }

  /** `order` lists the keys of the parcel map, each once. */
  ghost predicate Reads(order: seq<int>, parcels: map<int, Parcel>) {
    && (forall j :: j in order <==> j in parcels)
    && (forall p, q :: 0 <= p < q < |order| ==> order[p] != order[q])
  }

  /** The "error tx" panics of proposePartition; a key missing from the delta reads as shard zero. */
  predicate ErrorTx(delta: map<Addr, int>, me: int, txs: seq<Tx>) {
    exists tx :: tx in txs && (if Key(tx) in delta then delta[Key(tx)] else 0) != me
  }

  /** proposePartition. */
  function ProposePartition(l: Leader, order: seq<int>): Leader {
    l.(pool := l.pool + Collected(l.parcels, order),
       phase := Committing(TransferMsg(RoundDelta(l), CollectedAccounts(l.parcels, order), |l.modifiedMap|)))
  }

  /** AddAccounts: write the balances of those accounts that live here. */
  function AddAccounts(trie: Trie, h: Where, accounts: Trie): Trie {
    trie + map a | a in accounts && h.Here(a) :: accounts[a]
  }

  /** HandleinCommit for a partition request (accountTransfer_do), then the sequence id moves on. */
  function CommitPartition(l: Leader, me: int, addr2Shard: Addr -> int): Leader
    requires l.phase.Committing?
  {
    var atm := l.phase.atm;
    var pmap := l.pmap + atm.delta;
    l.(trie := AddAccounts(l.trie, Where(me, pmap, addr2Shard), atm.accounts),
       pmap := pmap,
       sequenceID := l.sequenceID + 1,
       modifiedMap := if |l.modifiedMap| != atm.atId then l.modifiedMap + [atm.delta] else l.modifiedMap,
       round := atm.atId,
       parcels := map[],
       partitionOn := false,
       partitionReady := {},
       collectOver := false,
       phase := Idle)
  }
}
