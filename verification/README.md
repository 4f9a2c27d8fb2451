# A verified model of a sharded blockchain emulator

The emulator runs one chain per shard, moves accounts between shards while transactions are in flight, and
keeps several caches and counters that the rest of the program trusts. This project models five of its state
machines and proves what holds in every run of them.

* **Re-sharding in account mode.** `ShardLeader` executes the leader's handlers on mutable fields, queues and
  maps; each is proved against a function of `LeaderSpec`, and what it sends is a function of
  `ReshardingSystem`, the transition system of the supervisor, all leaders and the network. On that system
  `ReshardingInvariant`, `ReshardingSteps`, `ReshardingSafety`, `ReshardingConservation`, `ReshardingProgress`,
  `ReshardingQueues`, `ReshardingLimits` and `ReshardingWitnesses` prove that the routing panics are
  unreachable, that the sequence-number barrier does its work exactly under one side condition, that all tries
  together behave like one ledger that knows no shards, that every injected transfer is pending in exactly one
  place or executed, that money is conserved but for one precisely counted exception, that a collection ends
  exactly when every parcel is there, and two limits of the barrier. `Transfers` holds what a block does to a
  trie and how the pool is split.
* **The CLPA partitioner.** `PartitionCLPA` maintains shard weights, cut size and vertex counts while it moves
  vertices; `EdgeCounts` counts undirected edges with no adjacency list in sight, `PartitionRuns` is the
  reference run that recounts everything before every choice, `PartitionChoice` says what scores mean and which
  shard is picked, `CommitteeCLPA` is the supervisor's merge and reset.
* **The UTXO wallet.** `UtxoLedger` is a plain outpoint ledger that accepts or refuses transactions,
  `UtxoSelection` and `UtxoWallet` are coin selection, the status trie and the transformation of injected
  transfers. The trie is proved to be an index of the ledger, exactly but for one case.
* **Block consensus with a fixed leader.** `PbftConsensusNode` executes the handlers, `PbftSpec` says what
  they do, `PbftSystem` runs them over a network that loses, duplicates and reorders messages, `PbftQuorums`
  and `PbftPrepares` say exactly when counted commits and prepares stand for a quorum, `PbftProgress` and
  `PbftCatchUp` where sequence ids stand and that the next block is prepared, `PbftRounds` that any number of
  blocks can be committed in time, and `PbftLimits` shows what duplicates do.
* **The broker committee.** `BrokerCommittee` executes the confirmation pools, `BrokerLifecycle` says how far
  each raw transfer is and proves that it stays in order in every run, `BrokerTransfers` whom the halves pay and
  that together they move the money of the raw transfers.

`dafny verify dfyconfig.toml` checks the whole project.

## What is assumed

* Re-sharding: what the supervisor sends to one shard arrives in order, and so do the relays of one shard to
  another; other messages overtake freely. The supervisor publishes a new delta only when every shard has
  committed the last one. The test of `PartitionOn` together with packing, and each handler, is one step. A
  shard processes a message while its proposing loop waits at the barrier.
* The default placement of an address (`Addr2Shard`) is an arbitrary function into the range of shards.
* Hashes are injective: a digest, a transaction id, a parent hash or a public-key hash is modelled by what it
  hashes. Random numbers are parameters: the nonces of coinbase transactions are required to be fresh.
  Numbers of raw transfers are distinct, as `data2tx` assigns them.
* Status tries are maps; a missing account holds `Init_Balance`. Balances and values are unbounded integers as
  `big.Int` is, values in UTXO mode are not negative. Counters never reach 2^64. Floating-point scores are
  exact rationals with explicit infinities and NaN.
* The order in which a Go map is read is arbitrary: every such loop picks any remaining key.
* Broker: a half of a transfer is reported only if it was sent out, and once.

## Where code and documentation disagree

* `code_manual/problem.md:10-11` says that a wallet with outputs that do not suffice is treated as
  insufficient funds; `chain/blockchain.go:355-360` mints a coinbase in that case too, and the test for a nil
  transaction in `consensus_shard/pbft_all/messageHandle.go:38` never succeeds. The model follows the code
  (`UtxoWallet.NeedsCoinbase`).
* `consensus_shard/pbft_all/messageHandle.go:211` logs 2f + 1 commits; the threshold is 2f of other nodes.

## Findings

* **Barrier.** `getPartitionReady` only looks at shards a relay was received from. `ReshardingLimits.BarrierHole`
  is a run of two shards in which the barrier opens while a relay is under way and a misrouted transfer
  reaches a block. `ReshardingSafety.BarrierIsExact` gives the exact condition.
* **Idle shards.** A shard's announced sequence id must be one past its last relay, but committing a round
  advances it too. So after a round, a shard that commits no block stops all later rounds:
  `ReshardingLimits.IdleShardStopsRounds`, with a run in `ReshardingWitnesses.SecondRoundStuck`.
* **Self-loops.** `changeShardRecompute` is short by one edge at both shards and by two in the cut for each
  self-loop of the moved vertex; it is exact if and only if there is none (`EdgeCounts.SelfLoopDrifts` is the
  smallest graph that shows it). The supervisor drops self-transfers
  (`supervisor/committee/committee_relay.go:45`), so such a graph reaches the partitioner only through other
  callers of `AddEdge`.
* **Empty shards.** With an empty shard the minimum weight is zero, every score is minus infinity, and the
  partitioner moves nothing: `PartitionRuns.EmptyShardFreezes`, and for the supervisor's rounds
  `CommitteeCLPA.CLPACommittee.RunRound`.
* **Refused deductions.** A cross-shard transfer whose deduction is refused is relayed all the same; the sum of
  those values is exactly what the system gains (`ReshardingConservation.MoneyIsConserved`), and a run that
  gains is `ReshardingWitnesses.MoneyAppears`.
* **Worthless outputs.** A transfer of zero by an owner whose outputs are all worth zero removes them from the
  trie and then spends a coinbase instead; trie and ledger agree if and only if this never happened.
* **Duplicate votes.** Votes are counted per delivered message, so with duplicated messages one node's commit
  can be counted as a quorum (`PbftLimits.DuplicatesFakeAQuorum`). A block that a node adds on a commit has its
  quorum of 2f distinct other nodes if and only if no node's commit for this block was delivered to it twice
  so far (`PbftQuorums.QuorumExactly`); other duplicates do no harm. For the prepares behind a commit the
  condition is that no sender was counted twice (`PbftPrepares.BroadcastExactly`).
* **Catch-up.** A node that lacks a block asks from one past its sequence id, which itself is past its height. The
  leader's answer is complete (`PbftCatchUp.LeaderSendsAll`), but it extends the chain if and only if the chain
  already reaches the block before the range (`PbftCatchUp.CatchUpExactly`): unless the node adds the block in
  between while it waits, catching up moves its sequence id and not its chain.
* **One shard.** Collection is over only when a parcel arrives, so with a single shard a round that was published
  never completes (`ReshardingProgress.ProposesExactly`).

## Model

| member | source | states |
|---|---|---|
| Transfers.SplitIsPermutation | consensus_shard/pbft_all/accountTransfer_module.go:71-119 | what is kept and what is sent to the shards is a permutation of the old pool |
| Transfers.SplitKeepsOrder | consensus_shard/pbft_all/accountTransfer_module.go:92-106 | the kept queue and every send list keep the order of the pool |
| Transfers.SplitRoutes | consensus_shard/pbft_all/accountTransfer_module.go:93-105 | a transfer is sent to a shard exactly if its key moves there, and kept exactly if its key moves to no shard |
| Transfers.SplitStep | consensus_shard/pbft_all/accountTransfer_module.go:71-119 | taking one shard's transfers out of what earlier passes left gives what taking them out of the whole pool gives |
| Transfers.SplitMass | consensus_shard/pbft_all/accountTransfer_module.go:71-119 | any sum over the pool is the sum over the kept transfers plus the sums over the lists sent |
| Transfers.RelayContents | consensus_shard/pbft_all/pbftInside_moduleCLPA.go:108-111 | a relay to a shard holds only marked copies of block transfers whose recipient lives there, and none is relayed home |
| Transfers.ApplyLocal | chain/blockchain.go:97-142 | a block changes no account that lives elsewhere |
| ShardLeader.TxPool.AddTxs2Pool | core/txpool.go:36-45 | transfers are appended in order |
| ShardLeader.TxPool.PackTxs | core/txpool.go:55-65 | a block takes as many as allowed from the front, and packed and remaining transfers are the old queue |
| ShardLeader.TxPool.AddRelayTx | core/txpool.go:68-76 | one relay list grows by the transfer, all others stay |
| ShardLeader.BlockChain.Get_PartitionMap | chain/blockchain.go:69-76 | the shard of an address under overrides and default |
| ShardLeader.BlockChain.GetUpdateStatusTrie | chain/blockchain.go:84-169 | the resulting trie is the block's transfers applied one after the other, also on the shortcuts for empty and ineffective blocks |
| ShardLeader.BlockChain.HandleTx | chain/blockchain.go:97-142 | one transfer: deduct if the sender is here, refuse on low balance and then skip the deposit, deposit if the recipient is here |
| ShardLeader.BlockChain.GenerateBlock | chain/blockchain.go:172-198 | the block is the front of the pool and names the trie that executing it gives |
| ShardLeader.BlockChain.AddAccounts | chain/blockchain.go:421-468 | exactly the received accounts that live here under the new map are written |
| ShardLeader.BlockChain.FetchAccounts | chain/blockchain.go:471-493 | balances in the order asked, the initial balance for unknown accounts |
| ShardLeader.LeaderNode.constructor | consensus_shard/pbft_all/dataSupport/clpaData_Extra.go:28-39 | a new leader is in the initial state of the system |
| ShardLeader.LeaderNode.HandleRelay | consensus_shard/pbft_all/pbftOutside_moduleCLPA.go:37-49 | the relay joins the pool and its sequence id is recorded for its sender; nothing else changes |
| ShardLeader.LeaderNode.HandleInjectTx | consensus_shard/pbft_all/pbftOutside_moduleCLPA.go:51-59 | injected transfers join the pool |
| ShardLeader.LeaderNode.HandlePartitionMsg | consensus_shard/pbft_all/pbftOutside_moduleCLPA.go:63-72 | the delta is appended and a partition is pending |
| ShardLeader.LeaderNode.HandlePartitionReady | consensus_shard/pbft_all/pbftOutside_moduleCLPA.go:75-90 | the sender counts as ready with its sequence id |
| ShardLeader.LeaderNode.HandleAccountStateAndTxMsg | consensus_shard/pbft_all/pbftOutside_moduleCLPA.go:93-108 | the parcel is stored under its sender and collection is over once all other shards have sent one (in every run exactly then: ReshardingProgress.CollectionIsExact) |
| ShardLeader.LeaderNode.ProposeBlock | consensus_shard/pbft_all/pbftInside_moduleCLPA.go:38-44 | refines the propose step of the system |
| ShardLeader.LeaderNode.ClassifyBody | consensus_shard/pbft_all/pbftInside_moduleCLPA.go:99-115 | panics exactly if some transfer of the block is not this shard's to process; else relay lists and executed list are those of the specification |
| ShardLeader.LeaderNode.CommitBlock | consensus_shard/pbft_all/pbftInside_moduleCLPA.go:86-134 | refines the commit step: new trie, next sequence id, one relay message to every other shard with the old sequence id |
| ShardLeader.LeaderNode.SendPartitionReady | consensus_shard/pbft_all/accountTransfer_module.go:17-37 | refines the announcement, with one message to every other shard |
| ShardLeader.LeaderNode.GetPartitionReady | consensus_shard/pbft_all/accountTransfer_module.go:40-55 | true exactly if as many shards are ready as there are and every recorded relay is the last before the announced sequence id |
| ShardLeader.LeaderNode.SplitPool | consensus_shard/pbft_all/accountTransfer_module.go:89-106 | one pass of the in-place two-pointer loop keeps and sends what it should, in order |
| ShardLeader.LeaderNode.SendAccountsAndTxs | consensus_shard/pbft_all/accountTransfer_module.go:58-122 | refines passing the barrier: the pool that remains and one parcel to every other shard with the moving accounts' balances and transfers |
| ShardLeader.LeaderNode.MergeParcels | consensus_shard/pbft_all/accountTransfer_module.go:135-140 | all parcels are merged, each once, in the order the map is read |
| ShardLeader.LeaderNode.AnyErrorTx | consensus_shard/pbft_all/accountTransfer_module.go:143-150 | panics exactly if a received transfer's key does not move here by the round's delta, a missing key reading as shard zero |
| ShardLeader.LeaderNode.ProposePartition | consensus_shard/pbft_all/accountTransfer_module.go:132-175 | refines proposing the partition, and panics exactly on an error transfer |
| ShardLeader.LeaderNode.CommitPartition | consensus_shard/pbft_all/accountTransfer_module.go:178-209 | refines committing the partition: new map, received accounts, cleared round state, next sequence id |
| ReshardingInvariant.BarrierAgrees | consensus_shard/pbft_all/accountTransfer_module.go:40-55 | when the barrier opens, every shard stands between its announcement and its commit of this round and announced its present sequence id |
| ReshardingSteps.StepInv | consensus_shard/pbft_all/pbftInside_moduleCLPA.go:22-46 | every event of the system keeps the invariant, the barrier under its side condition |
| ReshardingSafety.RunInv | consensus_shard/pbft_all/pbftInside_moduleCLPA.go:22-46 | the invariant holds along every run |
| ReshardingSafety.RoutingIsSafe | consensus_shard/pbft_all/pbftInside_moduleCLPA.go:99-107 | in every run no block that is out and no collected partition trips the "incorrect tx" and "error tx" panics |
| ReshardingSafety.DeltaIsThere | consensus_shard/pbft_all/accountTransfer_module.go:61-62 | in every run a shard in a round finds the round's delta both as the last one and at AccountTransferRound |
| ReshardingSafety.UpToDateShardsAgree | supervisor/committee/committee_clpa.go:63-69 | a shard that committed the last round places every address as the supervisor does |
| ReshardingSafety.BarrierHolds | consensus_shard/pbft_all/pbftInside_moduleCLPA.go:23-33 | while the barrier is open at a shard that has not sent its accounts, no other shard can commit a block or a partition |
| ReshardingSafety.BarrierIsExact | consensus_shard/pbft_all/accountTransfer_module.go:40-55 | an open barrier means that every relay ever sent here was delivered, if and only if from every other shard a relay was received or its sequence id shows it never committed a block |
| ReshardingSafety.OneLedgerFromStart | chain/blockchain.go:84-169 | along every run the balances at the accounts' homes are those of one ledger that executes the committed blocks and knows no shards |
| ReshardingSafety.AccountArrives | consensus_shard/pbft_all/accountTransfer_module.go:178-189 | committing a partition moves an account's home and keeps its balance, also for untouched accounts and over stale copies |
| ReshardingSafety.CompleteRound | consensus_shard/pbft_all/accountTransfer_module.go:58-84 | from one state with all shards done to any later one, an account's balance at its new home is its balance at the old home after the blocks committed in between |
| ReshardingSafety.UntouchedAccount | consensus_shard/pbft_all/accountTransfer_module.go:178-189 | so an account that no block in between touches keeps its balance, whatever moves, default accounts and stale copies included |
| ReshardingConservation.RelayedOnce | consensus_shard/pbft_all/pbftInside_moduleCLPA.go:108-134 | sorted by destination, the relayed halves of a block are all there, once each |
| ReshardingConservation.CollectedMass | consensus_shard/pbft_all/accountTransfer_module.go:135-140 | merging parcels in any order yields every transfer of every parcel once |
| ReshardingConservation.PendingStep | consensus_shard/pbft_all/pbftInside_moduleCLPA.go:76-159 | no event but injecting and committing a block changes what is pending, whatever is summed |
| ReshardingConservation.ExactlyOnce | consensus_shard/pbft_all/pbftInside_moduleCLPA.go:99-115 | in every run the injected transfers are the executed ones plus the pending ones, counted by any weight that ignores the relay mark |
| ReshardingConservation.MoneyIsConserved | chain/blockchain.go:97-142 | home balances plus the values of relayed but unexecuted transfers change over any run by exactly the values relayed after a refused deduction |
| ReshardingWitnesses.MoneyAppears | consensus_shard/pbft_all/pbftInside_moduleCLPA.go:108-111 | a run of two shards from genesis in which that gain is positive: a transfer of more than the sender has is refused and relayed |
| ReshardingLimits.BarrierHole | consensus_shard/pbft_all/accountTransfer_module.go:48-54 | without the side condition a run from genesis reaches a block that trips the routing panic |
| ReshardingLimits.BarrierOpensWhen | consensus_shard/pbft_all/accountTransfer_module.go:48-54 | with all shards announced, the barrier opens exactly if from every shard heard the last relay is the one of its latest commit |
| ReshardingLimits.IdleShardStopsRounds | consensus_shard/pbft_all/accountTransfer_module.go:40-55 | after a shard passed a barrier it completes at most that round until every shard it heard from commits another block |
| ReshardingWitnesses.SecondRoundStuck | consensus_shard/pbft_all/accountTransfer_module.go:40-55 | such a run: one relay, one completed round, a second round announced by all, and the barrier shut |
| ReshardingProgress.CollectionIsExact | consensus_shard/pbft_all/pbftOutside_moduleCLPA.go:93-108 | in every run, with or without the side condition, collection is over at a leader if and only if there are other shards and a parcel of each is there |
| ReshardingProgress.ProposesExactly | consensus_shard/pbft_all/pbftInside_moduleCLPA.go:30-34 | so a leader that has handed its accounts over can propose the round if and only if it holds a parcel of every other shard and there is one |
| ReshardingProgress.CollectionEnds | consensus_shard/pbft_all/accountTransfer_module.go:58-122 | in every run, once all shards have handed over and no parcel to this one is under way, it can propose: no parcel is lost |
| ReshardingProgress.BarrierOpensExactly | consensus_shard/pbft_all/accountTransfer_module.go:40-55 | in every run, once all shards have announced themselves and no announcement to this one is under way, its barrier is open if and only if the last relay from each shard it ever heard from belongs to that shard's latest sequence id |
| ReshardingQueues.PacksWhatFits | core/txpool.go:55-65 | a block is the longest front of the pool within the block size |
| ReshardingQueues.FirstInFirstOut | core/txpool.go:36-65 | between rounds what was in a pool and then arrived, in order, is what went into blocks, in order, and then what is left |
| EdgeCounts.Handshake | partition/partition_CLPA.go:101-128 | over all adjacency lists a cross edge is seen once from outside and an inner edge, self-loops included, twice; so halving is exact and the sum counts edges |
| EdgeCounts.LogSumAdd | partition/graph.go:31-45 | reading one more adjacency list adds exactly the entries of the edges at that vertex |
| EdgeCounts.WeightsSum | partition/partition_CLPA.go:101-142 | the weights sum to the edges plus the cut edges |
| EdgeCounts.CrossSum | partition/partition_CLPA.go:129-136 | over all shards every cut edge is seen twice, so the second halving is exact |
| EdgeCounts.MoveDrift | partition/partition_CLPA.go:145-167 | the incremental update differs from counting anew by exactly the self-loops of the moved vertex |
| EdgeCounts.LoopsSeen | partition/graph.go:40-45 | a vertex is in its own adjacency list exactly if it has a self-loop |
| EdgeCounts.SelfLoopDrifts | partition/partition_CLPA.go:145-167 | the smallest graph on which the incremental update is wrong: its cut becomes negative |
| EdgeCounts.TouchZero | partition/partition_CLPA.go:101-142 | a weight is zero exactly if no vertex of the graph lies in the shard |
| PartitionCLPA.Graph.AddVertex | partition/graph.go:23-28 | the vertex is in the set, edges stay |
| PartitionCLPA.Graph.AddEdge | partition/graph.go:31-45 | both ends are in, and the adjacency lists are those of the edge log with this edge appended |
| PartitionCLPA.CLPAState.AddVertex | partition/partition_CLPA.go:46-55 | the vertex is placed by default, and the vertex counts stay true exactly if it was new |
| PartitionCLPA.CLPAState.AddEdge | partition/partition_CLPA.go:58-69 | both ends are placed and the counts stay true |
| PartitionCLPA.CLPAState.ScanLists | partition/partition_CLPA.go:107-124 | in any order of reading, the scan counts cross edges at each shard once and inner edges twice |
| PartitionCLPA.CLPAState.ComputeEdges2Shard | partition/partition_CLPA.go:101-142 | weights, cut and minimum are the counts of undirected edges |
| PartitionCLPA.CLPAState.ChangeShardRecompute | partition/partition_CLPA.go:145-167 | the exact effect on every cached number; weights exact before are exact after if and only if the vertex has no self-loop |
| PartitionCLPA.CLPAState.GetShardScore | partition/partition_CLPA.go:214-227 | the score from the cached weights; above a non-zero minimum, score times degree times minimum is the neighbours in the shard times (minimum minus penalty times weight) |
| PartitionCLPA.CLPAState.PickShard | partition/partition_CLPA.go:238-252 | the first best neighbouring shard by strictly better score, else the vertex stays; above a positive minimum and penalty no neighbour's shard dominates the pick, unless the vertex stays because no score exceeds -9999 |
| PartitionCLPA.CLPAState.VisitVertex | partition/partition_CLPA.go:236-264 | one visit is a step of the reference run, and keeps the caches' relation to a recount |
| PartitionCLPA.CLPAState.MoveVertex | partition/partition_CLPA.go:253-262 | a move keeps counts true, and keeps the cut at most a recount, equal to it exactly while no vertex with a self-loop has moved, and then all weights exact |
| PartitionCLPA.CLPAState.CLPA_Partition | partition/partition_CLPA.go:230-273 | the run follows the reference partitioner that recounts before every choice; the closing recount changes neither weights nor cut if and only if no vertex with a self-loop moved, and then the minimum neither if and only if nothing moved or some weight is at most 0x7fffffff; the returned number is the exact cut; every iteration visits every vertex once |
| PartitionCLPA.CLPAState.MinIsTrue | partition/partition_CLPA.go:160-165 | while no vertex with a self-loop has moved, the cached minimum is zero exactly if some shard has no vertex of the graph, whichever sentinel was used |
| PartitionCLPA.CLPAState.SentinelsAgree | partition/partition_CLPA.go:160-165 | the two sentinels give the same minimum if and only if some weight is at most the smaller one |
| PartitionRuns.BestIsMax | partition/partition_CLPA.go:240-252 | no shard met beats the chosen score, and the chosen shard has it |
| PartitionChoice.CountIsMultiplicity | partition/partition_CLPA.go:219-224 | the neighbours counted for a shard are the multiplicity of that shard among the shards of the adjacency list |
| PartitionChoice.CountsSum | partition/partition_CLPA.go:217-224 | over all shards they sum to the degree |
| PartitionChoice.CountIsLinks | partition/partition_CLPA.go:219-224 | they are the ends of logged edges at the vertex whose other end lies in the shard |
| PartitionChoice.ScoreIs | partition/partition_CLPA.go:225 | score times degree times minimum equals neighbours times (minimum minus penalty times weight), for every non-zero minimum |
| PartitionChoice.AtMinimum | partition/partition_CLPA.go:225 | at the minimum weight the score is one minus the penalty times the share of neighbours |
| PartitionChoice.LighterScoresHigher | partition/partition_CLPA.go:225 | of two shards with equally many neighbours one scores higher if and only if it is lighter |
| PartitionChoice.MoreScoreHigher | partition/partition_CLPA.go:225 | of two equally heavy shards the one with more neighbours scores higher if and only if penalty times weight is below the minimum |
| PartitionChoice.PickIsHighest | partition/partition_CLPA.go:238-252 | the pick is a neighbour's shard that no neighbour's shard beats, or the vertex's own because no score exceeds -9999 |
| PartitionChoice.PickUndominated | partition/partition_CLPA.go:238-252 | no neighbour's shard with as many neighbours is lighter than the pick, and none with more is as light with room under the penalty |
| PartitionChoice.RefPickUndominated | partition/partition_CLPA.go:214-252 | the same of the reference run without an empty shard, in edges counted in the log |
| PartitionChoice.LeavesHeavyShard | partition/partition_CLPA.go:225-252 | with one neighbour in a heavy shard and one in the lightest the scores are -0.75 and 0.25 and the vertex moves |
| PartitionRuns.VisitMovesIff | partition/partition_CLPA.go:233-262 | a visit moves its vertex if and only if it has moved fewer than fifty times, another shard was picked and it is not the last of its own |
| PartitionRuns.LoopFreeNoneMoved | supervisor/committee/committee_relay.go:45-52 | on a graph without self-loops, the only kind the supervisor's filter lets through, no vertex with a self-loop ever moves, so the closing recount changes neither weights nor cut |
| PartitionRuns.RunExactDelta | partition/partition_CLPA.go:254-262 | the old partition map overridden by the returned delta is the new one |
| PartitionRuns.RunMoveBound | partition/partition_CLPA.go:237-259 | no vertex changes shard more than fifty times, and the counter counts its moves |
| PartitionRuns.RunKeepsShards | partition/partition_CLPA.go:230-265 | a run empties no shard and fills no empty one |
| PartitionRuns.MinimumZero | partition/partition_CLPA.go:137-141 | the minimum weight is never negative, and zero exactly if some shard has no vertex of the graph, from either sentinel |
| PartitionRuns.RunKeepsMinimumSign | partition/partition_CLPA.go:226-265 | on a graph of the kind the supervisor builds, a run leaves the minimum zero exactly if it was zero before |
| PartitionRuns.EmptyShardFreezes | partition/partition_CLPA.go:226-252 | if some shard has no vertex of the graph and the penalty is positive, nothing moves, self-loops and isolated vertices or not |
| CommitteeCLPA.CLPACommittee.AdjustByBlockInfos | supervisor/committee/committee_clpa.go:200-210 | executed transfers become edges in order, places stay |
| CommitteeCLPA.CLPACommittee.RunRound | supervisor/committee/committee_clpa.go:139-150 | after a round the supervisor finds every address where the partitioner left it, and the new graph starts from there; no shard was emptied or filled, no vertex moved more than fifty times; the minimum is zero after the run, and at every visit while no self-loop moved, exactly if some shard had no vertex before, and then the delta is empty; a hundred times every vertex is visited and gets the shard the reference picks |
| CommitteeCLPA.CLPACommittee.RoundFacts | partition/partition_CLPA.go:230-265 | the same, as facts about the run |
| CommitteeCLPA.CLPACommittee.RoundAgrees | supervisor/committee/committee_clpa.go:143-146 | merging an exact delta keeps the two views equal |
| CommitteeCLPA.CLPACommittee.ClpaReset | supervisor/committee/committee_clpa.go:192-198 | a new, empty graph whose partition map is the overrides |
| UtxoLedger.ReplayFacts | core/utxo_transaction.go:94-103 | in an accepted history unspent outputs come from listed transactions, what was spent stays gone, and no transaction occurs twice |
| UtxoLedger.NoDoubleSpend | consensus_shard/pbft_all/messageHandle.go:28-47 | no outpoint is spent by two transactions of an accepted history |
| UtxoLedger.PrefixReplays | core/utxo_txpool.go:54-64 | every prefix of an accepted history is accepted |
| UtxoLedger.ExactMeansNothingLost | chain/utxo_set.go:272-338 | the trie is the ledger grouped by owner exactly if no output was lost |
| UtxoSelection.TakeOutputs | chain/utxo_set.go:301-310 | one transaction's outputs, each once, until the total exceeds the amount or none is left; without the last one it does not exceed it |
| UtxoSelection.SelectOutputs | chain/utxo_set.go:295-322 | what is selected is removed and nothing else, its value is taken off the balance, it reaches the amount, and without its last output it is at most the amount |
| UtxoWallet.AddOutput | chain/utxo_set.go:351-373 | one output is stored under its owner, and if it was not there the balance stays the sum of the outputs |
| UtxoWallet.BuildInputs | chain/blockchain.go:379-396 | the inputs refer to exactly the selected outputs, once each, and are worth the same |
| UtxoWallet.SelectedWorth | chain/blockchain.go:352-360 | a coinbase is minted exactly if the owner is unknown, has too little or has nothing; selection takes off the trie exactly what it returns; and outputs are forgotten exactly in the case of a zero transfer by an owner of worthless outputs |
| UtxoWallet.SelectionAccepted | chain/blockchain.go:379-413 | the ledger accepts a transfer of selected outputs |
| UtxoWallet.CoinbaseAccepted | core/utxo_transaction.go:112-129 | the ledger accepts a fresh coinbase and the transfer that spends it at once |
| UtxoWallet.NormalStep | chain/blockchain.go:342-418 | enough funds: accepted, inputs worth the outputs, nothing minted, trie and ledger move together |
| UtxoWallet.CoinbaseStep | chain/blockchain.go:355-360 | no funds: coinbase and transfer accepted, exactly the amount minted, trie and ledger move together but for forgotten outputs |
| UtxoWallet.UTXOTxPool.PackTxs | core/utxo_txpool.go:54-64 | blocks take transactions in the order they were added |
| UtxoWallet.UTXOChain.FindSpendableOutputsFromStatusTrie | chain/utxo_set.go:272-338 | the three outcomes: unknown owner registered and -1, too little and nothing changed, or the selection taken off the account |
| UtxoWallet.UTXOChain.NewUTXOTransaction | chain/blockchain.go:342-418 | the transaction pays the amount and returns the change, from the selection or from a fresh coinbase |
| UtxoWallet.UTXOChain.AddUTXO2StatusTrie | chain/utxo_set.go:340-389 | exactly the transaction's outputs are stored, and the trie gains exactly their value |
| UtxoWallet.UTXOChain.TransformOne | consensus_shard/pbft_all/messageHandle.go:28-47 | one injected transfer: history stays accepted, trie stays an index, total value is what was minted; the trie equals the ledger afterwards if and only if it did before and this was not the forgetting case |
| UtxoWallet.UTXOChain.TxTransform | consensus_shard/pbft_all/messageHandle.go:16-54 | every request of a batch is transformed, in order: it becomes a part that pays it, with a coinbase first exactly if one is needed by the trie at that point, the trie before each request is worth what was minted and indexes what was emitted so far, and pool and history gain exactly the parts in order |
| UtxoWallet.BatchTransfers | consensus_shard/pbft_all/messageHandle.go:28-47 | the transfers among what a batch adds to the pool are one for each request, in order, and the k-th pays the k-th recipient the amount as its first output |
| UtxoWallet.UTXOChain.GenerateBlock | chain/blockchain.go:172-182 | whoever replays the blocks in order has every transaction accepted |
| UtxoWallet.ForgettingRun | chain/utxo_set.go:295-322 | the forgetting case is reachable from an empty trie |
| PbftConsensus.PbftConsensusNode.constructor | consensus_shard/pbft_all/pbft.go:103-114 | a new node is in the initial state, with f a third of the others |
| PbftConsensus.PbftConsensusNode.AddBlock | chain/blockchain.go:252-264 | every height but the next is refused |
| PbftConsensus.PbftConsensusNode.Set2DMap | consensus_shard/pbft_all/toolFuncs.go:17-29 | every message adds a vote, since votes are kept by pointer |
| PbftConsensus.PbftConsensusNode.Propose | consensus_shard/pbft_all/messageHandle.go:57-99 | refines the proposing step |
| PbftConsensus.PbftConsensusNode.HandlePrePrepare | consensus_shard/pbft_all/messageHandle.go:101-139 | stores the request in any case and prepares only in time and on a valid block |
| PbftConsensus.PbftConsensusNode.HandlePrepare | consensus_shard/pbft_all/messageHandle.go:141-190 | counts the vote and broadcasts one commit at the threshold |
| PbftConsensus.PbftConsensusNode.HandleCommit | consensus_shard/pbft_all/messageHandle.go:192-250 | counts the vote and replies once at the threshold: add the block and move the sequence id on, or ask for what is missing; the leader releases its lock (what the id is in every run: PbftProgress.IdFromStart) |
| PbftConsensus.PbftConsensusNode.HandleRequestOldSeq | consensus_shard/pbft_all/messageHandle.go:256-301 | the leader answers with the requests up to the first gap |
| PbftConsensus.PbftConsensusNode.HandleforSequentialRequest | consensus_shard/pbft_all/pbftInside_module.go:133-148 | blocks are added one after the other, only if there are enough |
| PbftConsensus.PbftConsensusNode.HandleSendOldSeq | consensus_shard/pbft_all/messageHandle.go:304-350 | catch-up stores and indexes the requests, moves the sequence id and resumes a pending pre-prepare |
| PbftSystem.PrefixAgreement | consensus_shard/pbft_all/messageHandle.go:57-99 | in every run every chain, catch-up included, is a prefix of the leader's proposals, one for each height |
| PbftSystem.LockMeansPending | consensus_shard/pbft_all/messageHandle.go:75-97 | the sequence lock is held exactly while the last proposal is uncommitted and is never released when free |
| PbftSystem.ReleasedOncePerProposal | consensus_shard/pbft_all/messageHandle.go:240-247 | a step releases the lock exactly if it puts the pending proposal on the leader's chain |
| PbftQuorums.VotesAreDeliveries | consensus_shard/pbft_all/toolFuncs.go:17-29 | the commits a node has counted for a block are exactly the deliveries of such commits to it, in order, under loss, duplication and reordering |
| PbftQuorums.QuorumExactly | consensus_shard/pbft_all/messageHandle.go:200-248 | in every run, a block added on a commit has commits of at least 2f distinct other nodes if and only if no node's commit for it was delivered to this node twice so far |
| PbftQuorums.LeaderBlocksExactly | consensus_shard/pbft_all/messageHandle.go:200-248 | in every run, the commits on which a block of the leader's chain was added come from at least 2f distinct other nodes if and only if no sender is among them twice |
| PbftQuorums.CommitsHaveQuorum | consensus_shard/pbft_all/messageHandle.go:200-248 | so if no message is delivered twice, a block added on commits has commits of at least 2f distinct other nodes |
| PbftQuorums.LeaderBlocksHaveQuorum | consensus_shard/pbft_all/messageHandle.go:200-248 | in those runs every block on the leader's chain has such a quorum |
| PbftSystem.AddKeepsPrefix | chain/blockchain.go:252-264 | whichever proposal is offered, the chain stays a prefix of the proposals |
| PbftSystem.LeaderCommits | consensus_shard/pbft_all/messageHandle.go:205-248 | a commit that counts at the leader is for its pending proposal and releases the lock it holds |
| PbftPrepares.BroadcastExactly | consensus_shard/pbft_all/messageHandle.go:156-189 | in every run, when a node broadcasts a commit, the prepares it counted come from 2f distinct other nodes (one less if it is not the leader), none the leader and each holding every block below, if and only if no sender was counted twice |
| PbftPrepares.BackedExactly | consensus_shard/pbft_all/messageHandle.go:156-189 | the same of any later state: the prepares counted first decide |
| PbftPrepares.NoRepeatIsBacked | consensus_shard/pbft_all/messageHandle.go:156-189 | it holds in particular if no node's prepare for the block was delivered to the broadcasting node twice |
| PbftPrepares.CommitsAreBacked | consensus_shard/pbft_all/messageHandle.go:156-189 | so it holds in runs in which no message is delivered twice |
| PbftPrepares.ThresholdsExactly | consensus_shard/pbft_all/messageHandle.go:156-214 | in every run and at every node a commit for a block was sent if and only if 2f prepares for it are counted, or one fewer at a follower; with 2f commits counted the block is answered |
| PbftPrepares.PreparedIsNext | consensus_shard/pbft_all/pbftInside_module.go:37-46 | a node prepares only the block that comes next on its own chain, in time or after catching up |
| PbftLimits.DuplicatesFakeAQuorum | consensus_shard/pbft_all/toolFuncs.go:17-29 | with duplicated messages the leader adds a block on one node's commit |
| PbftProgress.IdCountsReplies | consensus_shard/pbft_all/messageHandle.go:214-243 | over any part of a run without catch-up a node moves its sequence id by one for each request it answers from its pool and by nothing else, and never falls further behind its chain |
| PbftProgress.IdFromStart | consensus_shard/pbft_all/messageHandle.go:214-243 | in every run, a node that never caught up has as sequence id one more than the blocks it answered from its pool, at least one more than its height |
| PbftProgress.IdAfterCatchUp | consensus_shard/pbft_all/messageHandle.go:304-321 | after catching up the id is one past the end of the range and moves on from there in the same way; it is past the height then if and only if the chain is no longer than that end, and stays so |
| PbftProgress.NextIsPrepared | consensus_shard/pbft_all/messageHandle.go:101-139 | in every run, a node that never caught up answers the pre-prepare of the proposal that comes next on its chain with its prepare |
| PbftCatchUp.NeverBehind | consensus_shard/pbft_all/messageHandle.go:101-139 | in every run without duplicated messages the same holds of every follower, however often it caught up |
| PbftCatchUp.LeaderSendsAll | consensus_shard/pbft_all/messageHandle.go:256-301 | in every run the leader's answer to a request for old blocks is all its proposals in that range |
| PbftCatchUp.CatchUpExactly | consensus_shard/pbft_all/messageHandle.go:304-321 | a full answer takes the chain to the end of the range if and only if the chain already reaches the block before the range; so a node that adds nothing between asking and the answer gains nothing |
| PbftCatchUp.ResumesNext | consensus_shard/pbft_all/messageHandle.go:321-347 | a node that has caught up and holds the pre-prepare of the next block prepares it at once |
| PbftRounds.OneRound | consensus_shard/pbft_all/messageHandle.go:57-250 | from any settled state of four nodes a run without duplicates commits one more block on the leader and two followers |
| PbftRounds.AnyBlocksInTime | consensus_shard/pbft_all/messageHandle.go:57-250 | so for any list of contents some run of four nodes, with no message delivered twice and one node silent, puts exactly these blocks on the three chains, with locks free and sequence ids one past the height |
| BrokerLifecycle.EveryRunInOrder | supervisor/committee/committee_broker.go:161-253 | in every run each raw transfer has its first half sent once, its second half of the same value once and only after the first was reported, and an entry that is empty, the first half, or both in order |
| BrokerTransfers.EveryRunSends | supervisor/committee/committee_broker.go:210-252 | in every run the halves sent with the number of a raw transfer are exactly one from its sender to the broker and, once that is reported, one from the broker to its recipient, both of its value; nothing else is sent |
| BrokerTransfers.HalvesAddUp | supervisor/committee/committee_broker.go:210-252 | both halves of some transfers and first halves of others change every account as executing the former directly, but for what senders of the latter have paid and the broker holds |
| BrokerTransfers.EveryRunSettles | supervisor/committee/committee_broker.go:161-253 | in every run the halves on chain change every balance as the completed raw transfers executed directly would, except that senders of half-done ones have paid and the broker holds exactly their value |
| BrokerLifecycle.AddRawOk | supervisor/committee/committee_broker.go:265-281 | taking in a transfer with a new number keeps every life in order |
| BrokerLifecycle.Confirm1Ok | supervisor/committee/committee_broker.go:283-305 | a first report logs the first half and sends the second |
| BrokerLifecycle.Confirm2Ok | supervisor/committee/committee_broker.go:307-323 | a second report completes the entry |
| BrokerLifecycle.ReportOk | supervisor/committee/committee_broker.go:161-182 | a report of first-time halves in any mix keeps every life in order |
| BrokerLifecycle.ReportedExactly | supervisor/committee/committee_broker.go:161-182 | every reported half is recognised as the half of one transfer, and second halves are sent for exactly the first halves reported |
| BrokerCommittee.BrokerCommitteeMod.IsBroker | broker/broker.go:25-32 | true exactly for the listed addresses |
| BrokerCommittee.BrokerCommitteeMod.DealTxByBroker | supervisor/committee/committee_broker.go:184-208 | a batch is split: sent as they are exactly the transfers within one shard or with a broker at an end; for the others a first half from the sender to the broker is sent, in order |
| BrokerCommittee.SortKeepsOrder | supervisor/committee/committee_broker.go:184-208 | both parts keep the order of the batch |
| BrokerCommittee.SortIsPermutation | supervisor/committee/committee_broker.go:184-208 | the two parts together are the batch |
| BrokerCommittee.HalvesInOrder | supervisor/committee/committee_broker.go:210-252 | halves are made one for each raw transfer in order, first from sender to broker, second from broker to recipient |
| BrokerCommittee.BrokerCommitteeMod.HandleBrokerRawMag | supervisor/committee/committee_broker.go:265-281 | raw messages are stored and their first halves pooled and sent |
| BrokerCommittee.BrokerCommitteeMod.HandleTx1ConfirmMag | supervisor/committee/committee_broker.go:283-305 | known transfers are logged and their second halves pooled and sent, from the broker to the recipient of the raw transfer with its value and number; unknown ones are skipped |
| BrokerCommittee.BrokerCommitteeMod.HandleTx2ConfirmMag | supervisor/committee/committee_broker.go:307-323 | the second halves are logged in order |
| BrokerCommittee.BrokerCommitteeMod.CreateConfirm | supervisor/committee/committee_broker.go:161-182 | a report moves exactly the reported transfers on and sends exactly the second halves that are due: from the broker to the recipient of each raw transfer whose first half, from its sender to the broker, is in the report |

## Left out

- TCP, JSON and gob encoding, databases, CSV input, logging, measurement, process start and stop: messages are values and status tries are maps.
- Time, sleeps and goroutine scheduling: each handler is one step.
- Followers in account mode: they replay the leader's requests; only the leader's state is modelled there.
- Account nonces: copied along with balances and read by nobody.
- The interleaving of an incoming transfer between the test of PartitionOn and packing: assumed atomic.
- Synchronous HotStuff: its commits rest on timers.
- Byzantine nodes and view change: the view never changes and a node commits what it need not have voted for.
- Catch-up completeness: a node asks from one past its sequence id and may skip a height for good; that a gap ever closes is not claimed, only when an answer closes it.
- Digest mismatches in pre-prepares: the sender computes the digest, so they do not occur without an adversary.
- The bolt UTXO set, FindUTXO and Reindex: not in use.
- Cross-shard delivery in UTXO mode: its send test reads the account pool, so no end-to-end claim holds.
- CLPA with brokers: the same protocol with more cases.
- Init_Partition and Stable_Init_Partition: nothing calls them.
- Rounding of floating-point scores: scores are exact rationals, so ties broken by rounding are not modelled.
- ReshardingSafety.RoutingIsSafe: holds for runs in which a shard passes the barrier only after it has heard from every shard that committed blocks; ReshardingLimits.BarrierHole shows why.
- PbftSystem.PrefixAgreement: a handler that blocks for good, or the unlock of a free mutex, stops its node in the model instead of the whole process.
- ShardLeader.LeaderNode.SendAccountsAndTxs: addresses and states of a parcel travel as one map instead of two parallel lists.
- BrokerCommittee.BrokerCommitteeMod.DealTxByBroker: does not set the broker flags of transfers sent as they are, since only shards read them.
- UtxoWallet.UTXOChain.AddUTXO2StatusTrie: the random account nonce is not modelled.
- UtxoWallet.UTXOChain.TxTransform: a batch is any list of requests; that the program takes at most 200 from the front of the account pool at a time is not modelled.
- BrokerTransfers.EveryRunSends: the original sender, final recipient and raw hash that a half also carries are not modelled; only measurement and CLPA with brokers read them.
