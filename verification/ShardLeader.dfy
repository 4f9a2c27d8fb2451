/** The leader of one shard as the program runs it: fields that handlers update in place, loops over maps and
    queues.  Every handler is proved against LeaderSpec and sends exactly the messages of ReshardingSystem. */
module ShardLeader {
  import opened Placement
  import opened Transfers
  import opened LeaderSpec
  import opened ReshardingSystem

  // ---------------------------------------------------------------- core/txpool.go

  function Queued(relayPool: map<int, seq<Tx>>, shard: int): seq<Tx> {
    if shard in relayPool then relayPool[shard] else []
  }

  class TxPool {
    var TxQueue: seq<Tx>
    var RelayPool: map<int, seq<Tx>>

    constructor ()
      ensures TxQueue == [] && RelayPool == map[]
    {
      TxQueue, RelayPool := [], map[];
    }

    method AddTxs2Pool(txs: seq<Tx>)
      modifies this`TxQueue
      ensures TxQueue == old(TxQueue) + txs
    {
      for i := 0 to |txs|
        invariant TxQueue == old(TxQueue) + txs[..i]
      {
        TxQueue := TxQueue + [txs[i]];
      }
    }

    method PackTxs(maxTxs: nat) returns (packed: seq<Tx>)
      modifies this`TxQueue
      ensures packed + TxQueue == old(TxQueue) && |packed| == Min(maxTxs, |old(TxQueue)|)
    {
      var txNum := maxTxs;
      if |TxQueue| < txNum {
        txNum := |TxQueue|;
      }
      packed := TxQueue[..txNum];
      TxQueue := TxQueue[txNum..];
    }

    method AddRelayTx(tx: Tx, shard: int)
      modifies this`RelayPool
      ensures forall k :: Queued(RelayPool, k) == Queued(old(RelayPool), k) + if k == shard then [tx] else []
    {
      if shard !in RelayPool {
        RelayPool := RelayPool[shard := []];
      }
      RelayPool := RelayPool[shard := RelayPool[shard] + [tx]];
    }
  }

  // ---------------------------------------------------------------- chain/blockchain.go

  class BlockChain {
    const Txpool: TxPool
    var PartitionMap: map<Addr, int>
    var StateRoot: Trie  // the status trie of CurrentBlock
    const ShardID: int
    const BlockSize: nat
    const Addr2Shard: Addr -> int

    constructor (shard: int, blockSize: nat, addr2Shard: Addr -> int)
      ensures fresh(Txpool) && Txpool.TxQueue == [] && PartitionMap == map[] && StateRoot == map[]
      ensures ShardID == shard && BlockSize == blockSize && Addr2Shard == addr2Shard
    {
      Txpool := new TxPool();
      PartitionMap, StateRoot := map[], map[];
      ShardID, BlockSize, Addr2Shard := shard, blockSize, addr2Shard;
    }

    function Sees(): Where
      reads this`PartitionMap
    {
      Where(ShardID, PartitionMap, Addr2Shard)
    }

    method Update_PartitionMap(key: Addr, val: int)
      modifies this`PartitionMap
      ensures PartitionMap == old(PartitionMap)[key := val]
    {
      PartitionMap := PartitionMap[key := val];
    }

    method Get_PartitionMap(key: Addr) returns (shard: int)
      ensures shard == Sees().Of(key)
    {
      if key !in PartitionMap {
        return Addr2Shard(key);
      }
      return PartitionMap[key];
    }

    method GetUpdateStatusTrie(txs: seq<Tx>) returns (root: Trie)
      ensures root == Sees().ApplyAll(StateRoot, txs)
    {
      if |txs| == 0 {
        return StateRoot;
      }
      var st, cnt := StateRoot, 0;
      assert txs[..0] == [];
      for i := 0 to |txs|
        invariant cnt >= 0 && (cnt == 0 ==> st == StateRoot)
        invariant st == Sees().ApplyAll(StateRoot, txs[..i])
      {
        assert txs[..i + 1][..i] == txs[..i];
        st, cnt := HandleTx(st, cnt, txs[i]);
      }
      assert txs[..|txs|] == txs;
      if cnt == 0 {
        return StateRoot;
      }
      return st;
    }

    /** The loop body of GetUpdateStatusTrie; a refused deduction also skips the deposit. */
    method HandleTx(before: Trie, count: nat, tx: Tx) returns (st: Trie, cnt: nat)
      ensures st == Sees().Apply(before, tx)
      ensures cnt >= count && (cnt == count ==> st == before)
    {
      st, cnt := before, count;
      var from := Get_PartitionMap(tx.sender);
      if !tx.relayed && from == ShardID {
        var balance := if tx.sender in st then st[tx.sender] else INIT_BALANCE;
        if balance < tx.value {
          return;
        }
        st := st[tx.sender := balance - tx.value];
        cnt := cnt + 1;
      }
      var to := Get_PartitionMap(tx.recipient);
      if to == ShardID {
        var balance := if tx.recipient in st then st[tx.recipient] else INIT_BALANCE;
        st := st[tx.recipient := balance + tx.value];
        cnt := cnt + 1;
      }
    }

    /** Pack and execute; the block names the resulting trie but is not added yet. */
    method GenerateBlock() returns (body: seq<Tx>, root: Trie)
      modifies Txpool`TxQueue
      ensures body + Txpool.TxQueue == old(Txpool.TxQueue) && |body| == Min(BlockSize, |old(Txpool.TxQueue)|)
      ensures root == Sees().ApplyAll(StateRoot, body)
    {
      body := Txpool.PackTxs(BlockSize);
      root := GetUpdateStatusTrie(body);
    }

    method AddAccounts(accounts: Trie)
      modifies this`StateRoot
      ensures StateRoot == LeaderSpec.AddAccounts(old(StateRoot), Sees(), accounts)
    {
      hide LeaderSpec.AddAccounts;
      var st, todo := StateRoot, accounts.Keys;
      AddNoAccount(StateRoot, Sees(), accounts);
      ghost var was, h := StateRoot, Sees();
      while todo != {}
        invariant todo <= accounts.Keys
        invariant st == LeaderSpec.AddAccounts(was, h, accounts - todo)
        decreases |todo|
      {
        var a :| a in todo;
        AddOneAccount(was, h, accounts, todo, a);
        todo := todo - {a};
        var shard := Get_PartitionMap(a);
        if shard == ShardID {
          st := st[a := accounts[a]];
        }
      }
      assert accounts - {} == accounts;
      StateRoot := st;
    }

    static lemma AddNoAccount(trie: Trie, h: Where, accounts: Trie)
      ensures LeaderSpec.AddAccounts(trie, h, accounts - accounts.Keys) == trie
    {
    }

    static lemma AddOneAccount(trie: Trie, h: Where, accounts: Trie, todo: set<Addr>, a: Addr)
      requires a in todo && todo <= accounts.Keys
      ensures LeaderSpec.AddAccounts(trie, h, accounts - (todo - {a}))
           == if h.Here(a) then LeaderSpec.AddAccounts(trie, h, accounts - todo)[a := accounts[a]]
              else LeaderSpec.AddAccounts(trie, h, accounts - todo)
    {
      var done, next := accounts - todo, accounts - (todo - {a});
      assert next.Keys == done.Keys + {a};
      var old', new' := map b | b in done && h.Here(b) :: done[b], map b | b in next && h.Here(b) :: next[b];
      assert new' == if h.Here(a) then old'[a := accounts[a]] else old';
    }

    method FetchAccounts(addrs: seq<Addr>) returns (res: seq<int>)
      ensures |res| == |addrs| && forall k :: 0 <= k < |addrs| ==> res[k] == Balance(StateRoot, addrs[k])
    {
      res := [];
      for i := 0 to |addrs|
        invariant |res| == i && forall k :: 0 <= k < i ==> res[k] == Balance(StateRoot, addrs[k])
      {
        var balance := if addrs[i] in StateRoot then StateRoot[addrs[i]] else INIT_BALANCE;
        res := res + [balance];
      }
    }
  }

  // ---------------------------------------------------------------- dataSupport/clpaData_Extra.go

  class Data_supportCLPA {
    var ModifiedMap: seq<map<Addr, int>>
    var AccountTransferRound: nat
    var ReceivedNewAccountState: Trie
    var ReceivedNewTx: seq<Tx>
    var AccountStateTx: map<int, Parcel>
    var PartitionOn: bool
    var PartitionReady: set<int>
    var ReadySeq: map<int, nat>
    var CollectOver: bool

    constructor ()
      ensures ModifiedMap == [] && AccountTransferRound == 0 && ReceivedNewAccountState == map[] && ReceivedNewTx == []
      ensures AccountStateTx == map[] && !PartitionOn && PartitionReady == {} && ReadySeq == map[] && !CollectOver
    {
      ModifiedMap, AccountTransferRound, ReceivedNewAccountState, ReceivedNewTx := [], 0, map[], [];
      AccountStateTx, PartitionOn, PartitionReady, ReadySeq, CollectOver := map[], false, {}, map[], false;
    }
  }

  // ---------------------------------------------------------------- the leader

  class LeaderNode {
    const CurChain: BlockChain
    const cdm: Data_supportCLPA
    const ShardNums: nat
    var sequenceID: nat
    var seqIDMap: map<int, nat>

    constructor (shard: int, shardNums: nat, blockSize: nat, addr2Shard: Addr -> int)
      ensures State(Idle) == NewLeader() && Clean()
      ensures fresh(CurChain) && fresh(CurChain.Txpool) && fresh(cdm) && ShardNums == shardNums
      ensures CurChain.ShardID == shard && CurChain.BlockSize == blockSize && CurChain.Addr2Shard == addr2Shard
    {
      CurChain := new BlockChain(shard, blockSize, addr2Shard);
      cdm := new Data_supportCLPA();
      ShardNums, sequenceID, seqIDMap := shardNums, 1, map[];
    }

    /** The node as a value; the phase is where its proposing loop stands. */
    ghost function State(phase: Phase): Leader
      reads this, CurChain, CurChain.Txpool, cdm
    {
      Leader(CurChain.Txpool.TxQueue, CurChain.StateRoot, CurChain.PartitionMap, sequenceID, seqIDMap,
             cdm.ModifiedMap, cdm.AccountTransferRound, cdm.AccountStateTx, cdm.PartitionOn, cdm.PartitionReady,
             cdm.ReadySeq, cdm.CollectOver, phase)
    }

    /** No merge of parcels is under way. */
    ghost predicate Clean()
      reads cdm
    {
      cdm.ReceivedNewAccountState == map[] && cdm.ReceivedNewTx == []
    }

    // -------------------------------------------------------------- pbftOutside_moduleCLPA.go

    method HandleRelay(from: int, seqId: nat, txs: seq<Tx>, ghost phase: Phase)
      modifies this`seqIDMap, CurChain.Txpool`TxQueue
      ensures State(phase) == LeaderSpec.HandleRelay(old(State(phase)), from, seqId, txs)
    {
      CurChain.Txpool.AddTxs2Pool(txs);
      seqIDMap := seqIDMap[from := seqId];
    }

    method HandleInjectTx(txs: seq<Tx>, ghost phase: Phase)
      modifies CurChain.Txpool`TxQueue
      ensures State(phase) == HandleInject(old(State(phase)), txs)
    {
      CurChain.Txpool.AddTxs2Pool(txs);
    }

    method HandlePartitionMsg(delta: map<Addr, int>, ghost phase: Phase)
      modifies cdm`ModifiedMap, cdm`PartitionOn
      ensures State(phase) == LeaderSpec.HandlePartitionMsg(old(State(phase)), delta)
    {
      cdm.ModifiedMap := cdm.ModifiedMap + [delta];
      cdm.PartitionOn := true;
    }

    method HandlePartitionReady(from: int, seqId: nat, ghost phase: Phase)
      modifies cdm`PartitionReady, cdm`ReadySeq
      ensures State(phase) == LeaderSpec.HandlePartitionReady(old(State(phase)), from, seqId)
    {
      cdm.PartitionReady := cdm.PartitionReady + {from};
      cdm.ReadySeq := cdm.ReadySeq[from := seqId];
    }

    method HandleAccountStateAndTxMsg(from: int, p: Parcel, ghost phase: Phase)
      modifies cdm`AccountStateTx, cdm`CollectOver
      ensures State(phase) == HandleParcel(old(State(phase)), from, p, ShardNums)
    {
      cdm.AccountStateTx := cdm.AccountStateTx[from := p];
      if |cdm.AccountStateTx| == ShardNums - 1 {
        cdm.CollectOver := true;
      }
    }

    // -------------------------------------------------------------- blocks

    /** HandleinPropose while no partition is pending. */
    method ProposeBlock() returns (body: seq<Tx>, root: Trie)
      modifies CurChain.Txpool`TxQueue
      ensures State(Proposed(body, root)) == LeaderSpec.ProposeBlock(old(State(Idle)), CurChain.Sees(), CurChain.BlockSize)
    {
      ghost var pool := CurChain.Txpool.TxQueue;
      body, root := CurChain.GenerateBlock();
      assert pool[..|body|] == body && pool[|body|..] == CurChain.Txpool.TxQueue;
    }

    /** The loop of HandleinCommit over the block: it panics exactly on a misrouted transfer, and else sorts
        the transfers into relays by destination and executed ones. */
    method ClassifyBody(body: seq<Tx>) returns (panicked: bool, executed: seq<Tx>)
      modifies CurChain.Txpool`RelayPool
      ensures panicked <==> IncorrectTx(CurChain.Sees(), body)
      ensures !panicked ==> executed == CurChain.Sees().Executed(body)
      ensures !panicked ==> forall k :: Queued(CurChain.Txpool.RelayPool, k) == CurChain.Sees().RelayTo(k, body)
    {
      CurChain.Txpool.RelayPool := map[];
      executed := [];
      assert body[..0] == [];
      assert CurChain.Sees().Executed([]) == [] && forall k :: CurChain.Sees().RelayTo(k, []) == [];
      hide Where.RelayTo, Where.Executed;
      panicked := false;
      for i := 0 to |body|
        invariant !panicked && forall tx :: tx in body[..i] ==> !CurChain.Sees().Misrouted(tx)
        invariant executed == CurChain.Sees().Executed(body[..i])
        invariant forall k :: Queued(CurChain.Txpool.RelayPool, k) == CurChain.Sees().RelayTo(k, body[..i])
      {
        SortOne(CurChain.Sees(), body, i);
        assert body[..i + 1] == body[..i] + [body[i]] && body[i] in body;
        panicked, executed := ClassifyOne(body[i], executed);
        if panicked {
          return;
        }
      }
      assert body[..|body|] == body;
    }

    /** What one transfer contributes to the relay for shard `k`. */
    static function RelayShare(h: Where, tx: Tx, k: int): seq<Tx> {
      if h.Crosses(tx) && h.Of(tx.recipient) == k then [tx.(relayed := true)] else []
    }

    method ClassifyOne(tx: Tx, before: seq<Tx>) returns (panicked: bool, executed: seq<Tx>)
      modifies CurChain.Txpool`RelayPool
      ensures panicked <==> CurChain.Sees().Misrouted(tx)
      ensures !panicked ==> executed == before + if CurChain.Sees().Crosses(tx) then [] else [tx]
      ensures !panicked ==>
                forall k :: Queued(CurChain.Txpool.RelayPool, k)
                         == Queued(old(CurChain.Txpool.RelayPool), k) + RelayShare(CurChain.Sees(), tx, k)
    {
      executed := before;
      var ssid := CurChain.Get_PartitionMap(tx.sender);
      var rsid := CurChain.Get_PartitionMap(tx.recipient);
      if !tx.relayed && ssid != CurChain.ShardID {
        return true, executed;
      }
      if tx.relayed && rsid != CurChain.ShardID {
        return true, executed;
      }
      if !tx.relayed && rsid != CurChain.ShardID {
        CurChain.Txpool.AddRelayTx(tx.(relayed := true), rsid);
      } else {
        executed := executed + [tx];
      }
      panicked := false;
    }

    static lemma SortOne(h: Where, body: seq<Tx>, i: nat)
      requires i < |body|
      ensures h.Executed(body[..i + 1]) == h.Executed(body[..i]) + if h.Crosses(body[i]) then [] else [body[i]]
      ensures forall k :: h.RelayTo(k, body[..i + 1]) == h.RelayTo(k, body[..i]) + RelayShare(h, body[i], k)
    {
      assert body[..i + 1][..i] == body[..i];
    }

    method SendRelays(ghost body: seq<Tx>) returns (msgs: seq<Msg>)
      requires forall k :: Queued(CurChain.Txpool.RelayPool, k) == CurChain.Sees().RelayTo(k, body)
      ensures msgs == Relays(CurChain.Sees(), body, sequenceID, ShardNums)
    {
      msgs := [];
      for sid := 0 to ShardNums
        invariant msgs == Relays(CurChain.Sees(), body, sequenceID, sid)
      {
        if sid != CurChain.ShardID {
          msgs := msgs + [Relay(CurChain.ShardID, sid, sequenceID, Queued(CurChain.Txpool.RelayPool, sid))];
        }
      }
    }

    /** handleCommit for a block request: add the block, relay, then advance the sequence id. */
    method CommitBlock(body: seq<Tx>, root: Trie) returns (panicked: bool, msgs: seq<Msg>, executed: seq<Tx>)
      modifies this`sequenceID, CurChain`StateRoot, CurChain.Txpool`RelayPool
      ensures panicked <==> IncorrectTx(old(CurChain.Sees()), body)
      ensures !panicked ==> State(Idle) == LeaderSpec.CommitBlock(old(State(Proposed(body, root))))
      ensures !panicked ==> msgs == Relays(CurChain.Sees(), body, old(sequenceID), ShardNums)
      ensures !panicked ==> executed == CurChain.Sees().Executed(body)
    {
      CurChain.StateRoot := root;
      msgs := [];
      panicked, executed := ClassifyBody(body);
      if panicked {
        return;
      }
      msgs := SendRelays(body);
      CurChain.Txpool.RelayPool := map[];
      sequenceID := sequenceID + 1;
    }

    // -------------------------------------------------------------- accountTransfer_module.go

    method SendPartitionReady() returns (msgs: seq<Msg>)
      modifies cdm`PartitionReady
      ensures State(Waiting) == AnnounceReady(old(State(Idle)), CurChain.ShardID)
      ensures msgs == Readies(CurChain.ShardID, sequenceID, ShardNums)
    {
      cdm.PartitionReady := cdm.PartitionReady + {CurChain.ShardID};
      msgs := [];
      for sid := 0 to ShardNums
        invariant msgs == Readies(CurChain.ShardID, sequenceID, sid)
      {
        if sid != CurChain.ShardID {
          msgs := msgs + [Ready(CurChain.ShardID, sid, sequenceID)];
        }
      }
    }

    method GetPartitionReady() returns (ready: bool)
      ensures ready <==> BarrierOpen(State(Waiting), ShardNums)
    {
      var flag := SeqIDsAgree(cdm.ReadySeq);
      ready := |cdm.PartitionReady| == ShardNums && flag;
    }

    static lemma EmptyIfNone(s: set<int>)
      ensures (forall x :: x !in s) ==> s == {}
    {
      if forall x :: x !in s {
        assert s == {};
      }
    }

    method SeqIDsAgree(readySeq: map<int, nat>) returns (flag: bool)
      ensures flag <==> forall j :: j in seqIDMap ==> j in readySeq && readySeq[j] == seqIDMap[j] + 1
    {
      flag := true;
      var todo := seqIDMap.Keys;
      while todo != {}
        invariant todo <= seqIDMap.Keys
        invariant flag <==> forall j :: j in seqIDMap && j !in todo ==> j in readySeq && readySeq[j] == seqIDMap[j] + 1
        decreases |todo|
      {
        EmptyIfNone(todo);
        var sid :| sid in todo;
        todo := todo - {sid};
        if sid !in readySeq || readySeq[sid] != seqIDMap[sid] + 1 {
          flag := false;
        }
      }
    }

    /** The accounts that leave, in the order in which the delta is read. */
    method AccountsToFetch(delta: map<Addr, int>) returns (addrs: seq<Addr>)
      ensures forall a :: a in addrs <==> a in delta && delta[a] != CurChain.ShardID && CurChain.Sees().Here(a)
    {
      var todo := delta.Keys;
      addrs := [];
      while todo != {}
        invariant todo <= delta.Keys
        invariant forall a :: a in addrs <==>
                    a in delta && a !in todo && delta[a] != CurChain.ShardID && CurChain.Sees().Here(a)
        decreases |todo|
      {
        var key :| key in todo;
        todo := todo - {key};
        var now := CurChain.Get_PartitionMap(key);
        if delta[key] != CurChain.ShardID && now == CurChain.ShardID {
          addrs := addrs + [key];
        }
      }
    }

    /** The accounts among these that go to shard `i`, with their balances. */
    method AccountsFor(delta: map<Addr, int>, addrs: seq<Addr>, states: seq<int>, i: int) returns (accounts: Trie)
      requires i != CurChain.ShardID && |states| == |addrs|
      requires forall k :: 0 <= k < |addrs| ==> states[k] == Balance(CurChain.StateRoot, addrs[k])
      requires forall a :: a in addrs <==> a in delta && delta[a] != CurChain.ShardID && CurChain.Sees().Here(a)
      ensures accounts == CurChain.Sees().Accounts(delta, i, CurChain.StateRoot)
    {
      accounts := map[];
      for idx := 0 to |addrs|
        invariant forall a :: a in accounts <==> a in addrs[..idx] && delta[a] == i
        invariant forall a :: a in accounts ==> accounts[a] == Balance(CurChain.StateRoot, a)
      {
        assert addrs[..idx + 1] == addrs[..idx] + [addrs[idx]];
        if delta[addrs[idx]] == i {
          accounts := accounts[addrs[idx] := states[idx]];
        }
      }
      assert addrs[..|addrs|] == addrs;
    }

    /** One pass over the pool for shard `i`: what follows its account is taken out, the rest is moved to the
        front of the same queue. */
    method SplitPool(ghost delta: map<Addr, int>, addrSet: set<Addr>, i: int) returns (txSend: seq<Tx>)
      requires forall a :: a in addrSet <==> CurChain.Sees().Leaves(delta, i, a)
      modifies CurChain.Txpool`TxQueue
      ensures CurChain.Txpool.TxQueue == Stays(CurChain.Sees(), delta, i, old(CurChain.Txpool.TxQueue))
      ensures txSend == CurChain.Sees().Sent(delta, i, old(CurChain.Txpool.TxQueue))
    {
      var pool := CurChain.Txpool;
      ghost var q, h := pool.TxQueue, CurChain.Sees();
      txSend := [];
      var firstPtr := 0;
      assert q[..0] == [];
      assert Stays(h, delta, i, []) == [] && h.Sent(delta, i, []) == [];
      hide Stays, Where.Sent;
      for secondPtr := 0 to |pool.TxQueue|
        invariant firstPtr <= secondPtr && |pool.TxQueue| == |q|
        invariant pool.TxQueue[secondPtr..] == q[secondPtr..]
        invariant pool.TxQueue[..firstPtr] == Stays(h, delta, i, q[..secondPtr])
        invariant txSend == h.Sent(delta, i, q[..secondPtr])
      {
        CompactOne(pool.TxQueue, q, firstPtr, secondPtr);
        SplitOne(h, delta, i, q, secondPtr);
        var ptx := pool.TxQueue[secondPtr];
        var condition1 := ptx.sender in addrSet && !ptx.relayed;
        var condition2 := ptx.recipient in addrSet && ptx.relayed;
        if condition1 || condition2 {
          txSend := txSend + [ptx];
        } else {
          pool.TxQueue := pool.TxQueue[firstPtr := ptx];
          firstPtr := firstPtr + 1;
        }
      }
      assert q[..|q|] == q;
      pool.TxQueue := pool.TxQueue[..firstPtr];
    }

    /** Writing the next transfer at the front pointer does not touch what is still to be read. */
    static lemma CompactOne(was: seq<Tx>, q: seq<Tx>, f: nat, n: nat)
      requires f <= n < |q| == |was| && was[n..] == q[n..]
      ensures was[n] == q[n] && was[n + 1..] == q[n + 1..]
      ensures was[f := q[n]][..f + 1] == was[..f] + [q[n]] && was[f := q[n]][n + 1..] == q[n + 1..]
    {
      assert was[n..][0] == q[n..][0];
      assert was[n..][1..] == q[n..][1..];
    }

    static lemma SplitOne(h: Where, delta: map<Addr, int>, i: int, q: seq<Tx>, n: nat)
      requires n < |q|
      ensures Stays(h, delta, i, q[..n + 1]) == Stays(h, delta, i, q[..n]) + if h.Leaves(delta, i, Key(q[n])) then [] else [q[n]]
      ensures h.Sent(delta, i, q[..n + 1]) == h.Sent(delta, i, q[..n]) + if h.Leaves(delta, i, Key(q[n])) then [q[n]] else []
    {
      assert q[..n + 1][..n] == q[..n];
    }

    method SendAccountsAndTxs() returns (msgs: seq<Msg>)
      requires cdm.ModifiedMap != []
      modifies CurChain.Txpool`TxQueue
      ensures State(Collecting) == SendParcels(old(State(Waiting)), CurChain.Sees(), ShardNums)
      ensures msgs == Parcels(old(State(Waiting)), CurChain.Sees(), ShardNums)
    {
      var delta := cdm.ModifiedMap[|cdm.ModifiedMap| - 1];
      ghost var l, h := State(Waiting), CurChain.Sees();
      var addrs := AccountsToFetch(delta);
      var states := CurChain.FetchAccounts(addrs);
      msgs := [];
      KeptNone(h, delta, l.pool);
      for i := 0 to ShardNums
        invariant CurChain.Txpool.TxQueue == h.Kept(delta, i, l.pool)
        invariant msgs == Parcels(l, h, i)
      {
        SplitStep(h, delta, i, l.pool);
        if i != CurChain.ShardID {
          var accounts := AccountsFor(delta, addrs, states, i);
          var txSend := SplitPool(delta, accounts.Keys, i);
          msgs := msgs + [Accounts(CurChain.ShardID, i, Parcel(accounts, txSend))];
        } else {
          StaysAll(h, delta, i, h.Kept(delta, i, l.pool));
        }
      }
    }

    /** Merge the parcels into the received accounts and transfers, in whatever order the map is read. */
    method MergeParcels() returns (ghost order: seq<int>)
      requires Clean()
      modifies cdm`ReceivedNewAccountState, cdm`ReceivedNewTx
      ensures Reads(order, cdm.AccountStateTx)
      ensures cdm.ReceivedNewAccountState == CollectedAccounts(cdm.AccountStateTx, order)
      ensures cdm.ReceivedNewTx == Collected(cdm.AccountStateTx, order)
    {
      order := [];
      assert CollectedAccounts(cdm.AccountStateTx, []) == map[] && Collected(cdm.AccountStateTx, []) == [];
      hide Collected, CollectedAccounts;
      var todo := cdm.AccountStateTx.Keys;
      while todo != {}
        invariant todo <= cdm.AccountStateTx.Keys
        invariant ReadsAllBut(order, cdm.AccountStateTx, todo)
        invariant cdm.ReceivedNewAccountState == CollectedAccounts(cdm.AccountStateTx, order)
        invariant cdm.ReceivedNewTx == Collected(cdm.AccountStateTx, order)
        decreases |todo|
      {
        EmptyIfNone(todo);
        var from :| from in todo;
        var at := cdm.AccountStateTx[from];
        ReadOne(order, cdm.AccountStateTx, todo, from);
        todo, order := todo - {from}, order + [from];
        cdm.ReceivedNewAccountState := cdm.ReceivedNewAccountState + at.accounts;
        cdm.ReceivedNewTx := cdm.ReceivedNewTx + at.txs;
      }
    }

    static ghost predicate ReadsAllBut(order: seq<int>, parcels: map<int, Parcel>, todo: set<int>) {
      && (forall j :: j in order <==> j in parcels && j !in todo)
      && (forall p, q :: 0 <= p < q < |order| ==> order[p] != order[q])
    }

    static lemma ReadOne(order: seq<int>, parcels: map<int, Parcel>, todo: set<int>, j: int)
      requires ReadsAllBut(order, parcels, todo) && j in todo && j in parcels
      ensures ReadsAllBut(order + [j], parcels, todo - {j})
      ensures Collected(parcels, order + [j]) == Collected(parcels, order) + parcels[j].txs
      ensures CollectedAccounts(parcels, order + [j]) == CollectedAccounts(parcels, order) + parcels[j].accounts
    {
      assert (order + [j])[..|order|] == order;
    }

    /** The "error tx" check: a Go map yields zero for a missing key. */
    method AnyErrorTx(delta: map<Addr, int>, txs: seq<Tx>) returns (panicked: bool)
      ensures panicked <==> ErrorTx(delta, CurChain.ShardID, txs)
    {
      for i := 0 to |txs|
        invariant !ErrorTx(delta, CurChain.ShardID, txs[..i])
      {
        assert txs[..i + 1] == txs[..i] + [txs[i]];
        var tx := txs[i];
        assert tx in txs;
        var dest := if Key(tx) in delta then delta[Key(tx)] else 0;
        if dest != CurChain.ShardID {
          return true;
        }
      }
      assert txs[..|txs|] == txs;
      panicked := false;
    }

    method ProposePartition() returns (panicked: bool, atm: TransferMsg, ghost order: seq<int>)
      requires Clean() && cdm.AccountTransferRound < |cdm.ModifiedMap|
      modifies cdm`ReceivedNewAccountState, cdm`ReceivedNewTx, CurChain.Txpool`TxQueue
      ensures Reads(order, cdm.AccountStateTx)
      ensures panicked <==> ErrorTx(RoundDelta(old(State(Collecting))), CurChain.ShardID, Collected(cdm.AccountStateTx, order))
      ensures !panicked ==> State(Committing(atm)) == LeaderSpec.ProposePartition(old(State(Collecting)), order)
    {
      var delta := cdm.ModifiedMap[cdm.AccountTransferRound];
      order := MergeParcels();
      atm := TransferMsg(delta, cdm.ReceivedNewAccountState, |cdm.ModifiedMap|);
      panicked := AnyErrorTx(delta, cdm.ReceivedNewTx);
      if panicked {
        return;
      }
      CurChain.Txpool.AddTxs2Pool(cdm.ReceivedNewTx);
    }

    method UpdatePartitionMaps(delta: map<Addr, int>)
      modifies CurChain`PartitionMap
      ensures CurChain.PartitionMap == old(CurChain.PartitionMap) + delta
    {
      var todo := delta.Keys;
      while todo != {}
        invariant todo <= delta.Keys
        invariant CurChain.PartitionMap == old(CurChain.PartitionMap) + (delta - todo)
        decreases |todo|
      {
        var key :| key in todo;
        todo := todo - {key};
        CurChain.Update_PartitionMap(key, delta[key]);
      }
      assert delta - {} == delta;
    }

    /** handleCommit for a partition request: accountTransfer_do, then the sequence id moves on. */
    method CommitPartition(atm: TransferMsg)
      modifies this`sequenceID, CurChain`PartitionMap, CurChain`StateRoot, cdm
      ensures State(Idle) == LeaderSpec.CommitPartition(old(State(Committing(atm))), CurChain.ShardID, CurChain.Addr2Shard)
      ensures Clean()
    {
      UpdatePartitionMaps(atm.delta);
      CurChain.AddAccounts(atm.accounts);
      hide LeaderSpec.AddAccounts;
      EndRound(atm);
      sequenceID := sequenceID + 1;
    }

    method EndRound(atm: TransferMsg)
      modifies cdm
      ensures State(Idle) == old(State(Idle)).(
                modifiedMap := if |old(cdm.ModifiedMap)| != atm.atId then old(cdm.ModifiedMap) + [atm.delta] else old(cdm.ModifiedMap),
                round := atm.atId, parcels := map[], partitionOn := false, partitionReady := {}, collectOver := false)
      ensures Clean()
    {
      if |cdm.ModifiedMap| != atm.atId {
        cdm.ModifiedMap := cdm.ModifiedMap + [atm.delta];
      }
      cdm.AccountTransferRound := atm.atId;
      cdm.AccountStateTx := map[];
      cdm.ReceivedNewAccountState := map[];
      cdm.ReceivedNewTx := [];
      cdm.PartitionOn := false;
      cdm.CollectOver := false;
      cdm.PartitionReady := {};
    }

    static lemma {:induction false} StaysAll(h: Where, delta: map<Addr, int>, k: nat, txs: seq<Tx>)
      requires k == h.me
      ensures Stays(h, delta, k, txs) == txs
    {
      if txs != [] {
        StaysAll(h, delta, k, txs[..|txs| - 1]);
      }
    }
  }
}
