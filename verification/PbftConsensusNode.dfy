/** A consensus node as the program runs it, proved against PbftSpec handler by handler
    (consensus_shard/pbft_all/pbft.go, messageHandle.go, toolFuncs.go, pbftInside_module.go). */
module PbftConsensus {
  import opened PbftSpec

  class PbftConsensusNode {
    const NodeID: int
    const malicious_nums: nat
    var chain: seq<Block>
    var sequenceID: int
    var requestPool: set<Digest>
    var height2Digest: map<int, Digest>
    var cntPrepareConfirm: map<Digest, seq<int>>
    var cntCommitConfirm: map<Digest, seq<int>>
    var isCommitBroadcast: set<Digest>
    var isReply: set<Digest>
    var sequenceLock: bool
    var askForLock: bool
    var halted: bool

    constructor (nodeID: int, nodeNums: nat)
      requires nodeNums > 0
      ensures State() == NewNode() && NodeID == nodeID && malicious_nums == (nodeNums - 1) / 3
    {
      NodeID, malicious_nums := nodeID, (nodeNums - 1) / 3;
      chain, sequenceID, requestPool, height2Digest := [], 1, {}, map[];
      cntPrepareConfirm, cntCommitConfirm, isCommitBroadcast, isReply := map[], map[], {}, {};
      sequenceLock, askForLock, halted := false, false, false;
    }

    ghost function State(): Node
      reads this
    {
      Node(chain, sequenceID, requestPool, height2Digest, cntPrepareConfirm, cntCommitConfirm, isCommitBroadcast,
           isReply, sequenceLock, askForLock, halted)
    }

    // -------------------------------------------------------------- chain/blockchain.go

    method AddBlock(b: Block)
      modifies this`chain
      ensures chain == PbftSpec.AddBlock(old(chain), b)
    {
      if Number(b) != Number(Current(chain)) + 1 {
        return;
      }
      chain := chain + [b];
    }

    // -------------------------------------------------------------- toolFuncs.go

    /** A vote is stored under the pointer of its message, so every message adds an entry. */
    method Set2DMap(isPrepare: bool, key: Digest, val: int)
      modifies this`cntPrepareConfirm, this`cntCommitConfirm
      ensures cntPrepareConfirm ==
              if isPrepare then old(cntPrepareConfirm)[key := Votes(old(cntPrepareConfirm), key) + [val]] else old(cntPrepareConfirm)
      ensures cntCommitConfirm ==
              if isPrepare then old(cntCommitConfirm) else old(cntCommitConfirm)[key := Votes(old(cntCommitConfirm), key) + [val]]
    {
      if isPrepare {
        if key !in cntPrepareConfirm {
          cntPrepareConfirm := cntPrepareConfirm[key := []];
        }
        cntPrepareConfirm := cntPrepareConfirm[key := cntPrepareConfirm[key] + [val]];
      } else {
        if key !in cntCommitConfirm {
          cntCommitConfirm := cntCommitConfirm[key := []];
        }
        cntCommitConfirm := cntCommitConfirm[key := cntCommitConfirm[key] + [val]];
      }
    }

    method Count(votes: seq<int>) returns (cnt: nat)
      ensures cnt == |votes|
    {
      cnt := 0;
      for i := 0 to |votes|
        invariant cnt == i
      {
        cnt := cnt + 1;
      }
    }

    // -------------------------------------------------------------- messageHandle.go

    /** One iteration of Propose, from taking the sequence lock to the broadcast. */
    method Propose(content: int) returns (out: set<Msg>)
      requires !sequenceLock
      modifies this`sequenceLock, this`requestPool, this`height2Digest
      ensures OnPropose(old(State()), content) == Reaction(State(), out)
    {
      sequenceLock := true;
      var block := Block(Current(chain), Number(Current(chain)) + 1, content);
      requestPool := requestPool + {block};
      height2Digest := height2Digest[sequenceID := block];
      out := {PrePrepare(block, sequenceID)};
    }

    method HandlePrePrepare(r: Block, seqId: int) returns (out: set<Msg>)
      modifies this`requestPool, this`height2Digest
      ensures OnPrePrepare(old(State()), NodeID, r, seqId) == Reaction(State(), out)
    {
      var flag := false;
      if sequenceID < seqId {
        requestPool := requestPool + {r};
        height2Digest := height2Digest[seqId := r];
      } else {
        flag := HandleinPrePrepare(r);
        requestPool := requestPool + {r};
        height2Digest := height2Digest[seqId := r];
      }
      out := {};
      if flag {
        out := {Prepare(r, seqId, NodeID)};
      }
    }

    method HandleinPrePrepare(r: Block) returns (ok: bool)
      modifies this`requestPool
      ensures ok == IsValidBlock(chain, r)
      ensures requestPool == if ok then old(requestPool) + {r} else old(requestPool)
    {
      if !(r.Block? && r.parent == Current(chain)) {
        return false;
      }
      requestPool := requestPool + {r};
      ok := true;
    }

    method HandlePrepare(d: Digest, seqId: int, sender: int) returns (out: set<Msg>)
      modifies this`cntPrepareConfirm, this`cntCommitConfirm, this`isCommitBroadcast
      ensures OnPrepare(old(State()), NodeID, malicious_nums, d, seqId, sender) == Reaction(State(), out)
    {
      out := {};
      if d !in requestPool || sequenceID < seqId {
        return;
      }
      Set2DMap(true, d, sender);
      var cnt := Count(cntPrepareConfirm[d]);
      var specifiedcnt := 2 * malicious_nums;
      if NodeID != 0 {
        specifiedcnt := specifiedcnt - 1;
      }
      if cnt >= specifiedcnt && d !in isCommitBroadcast {
        out := {Commit(d, seqId, NodeID)};
        isCommitBroadcast := isCommitBroadcast + {d};
      }
    }

    method HandleCommit(d: Digest, seqId: int, sender: int) returns (out: set<Msg>)
      modifies this
      ensures OnCommit(old(State()), NodeID, malicious_nums, d, seqId, sender) == Reaction(State(), out)
    {
      Set2DMap(false, d, sender);
      var cnt := Count(cntCommitConfirm[d]);
      assert State() == CountCommit(old(State()), d, sender);
      out := {};
      if cnt >= 2 * malicious_nums && d !in isReply {
        out := ReplyTo(d, seqId);
      }
    }

    method ReplyTo(d: Digest, seqId: int) returns (out: set<Msg>)
      modifies this
      ensures Reply(old(State()), NodeID, d, seqId) == Reaction(State(), out)
    {
      out := {};
      if d !in requestPool {
        isReply := isReply + {d};
        if askForLock {
          halted := true;  // blocks for good: the reply that would free the lock waits behind this handler
          return;
        }
        askForLock := true;
        out := {RequestOld(sequenceID + 1, seqId, NodeID)};
      } else {
        AddBlock(d);
        isReply := isReply + {d};
        sequenceID := sequenceID + 1;
      }
      if NodeID == 0 {
        if sequenceLock {
          sequenceLock := false;
        } else {
          halted := true;
        }
      }
    }

    method HandleRequestOldSeq(start: int, end: int, sender: int) returns (out: set<Msg>)
      ensures OnRequestOld(State(), NodeID, start, end, sender) == Reaction(State(), out)
    {
      out := {};
      if NodeID != 0 {
        return;
      }
      var requests := [];
      var height := start;
      while height <= end
        invariant Gather(State(), start, end) == requests + Gather(State(), height, end)
        decreases end - height
      {
        if height !in height2Digest {
          break;
        }
        if height2Digest[height] !in requestPool {
          break;
        }
        requests := requests + [height2Digest[height]];
        height := height + 1;
      }
      assert Gather(State(), height, end) == [] && requests + [] == requests;
      out := {SendOld(start, end, requests, sender)};
    }

    /** HandleforSequentialRequest of the relay module. */
    method HandleforSequentialRequest(start: int, end: int, requests: seq<Block>)
      modifies this`chain, this`sequenceID
      ensures chain == if end - start + 1 == |requests| then AddBlocks(old(chain), requests) else old(chain)
      ensures sequenceID == if end - start + 1 == |requests| then end + 1 else old(sequenceID)
    {
      if end - start + 1 != |requests| {
        return;
      }
      assert requests[..0] == [];
      for k := 0 to |requests|
        invariant chain == AddBlocks(old(chain), requests[..k])
        invariant sequenceID == old(sequenceID)
      {
        assert requests[..k + 1][..k] == requests[..k];
        AddBlock(requests[k]);
      }
      assert requests[..|requests|] == requests;
      sequenceID := end + 1;
    }

    method StoreRequests(start: int, requests: seq<Block>)
      modifies this`requestPool, this`height2Digest, this`isReply
      ensures requestPool == old(requestPool) + set b | b in requests
      ensures isReply == old(isReply) + set b | b in requests
      ensures height2Digest == Indexed(old(height2Digest), start, requests)
    {
      assert requests[..0] == [];
      for idx := 0 to |requests|
        invariant requestPool == old(requestPool) + set b | b in requests[..idx]
        invariant isReply == old(isReply) + set b | b in requests[..idx]
        invariant height2Digest == Indexed(old(height2Digest), start, requests[..idx])
      {
        assert requests[..idx + 1] == requests[..idx] + [requests[idx]];
        assert requests[..idx + 1][..idx] == requests[..idx];
        requestPool := requestPool + {requests[idx]};
        height2Digest := height2Digest[idx + start := requests[idx]];
        isReply := isReply + {requests[idx]};
      }
      assert requests[..|requests|] == requests;
    }

    method HandleSendOldSeq(start: int, end: int, requests: seq<Block>) returns (out: set<Msg>)
      modifies this
      ensures OnSendOld(old(State()), NodeID, start, end, requests) == Reaction(State(), out)
    {
      HandleforSequentialRequest(start, end, requests);
      StoreRequests(start, requests);
      sequenceID := end + 1;
      assert State() == CaughtUp(old(State()), start, end, requests);
      out := PrepareNext();
      if askForLock {
        askForLock := false;
      } else {
        halted := true;
      }
    }

    /** The pre-prepare that came too early, if there is one. */
    method PrepareNext() returns (out: set<Msg>)
      modifies this`requestPool
      ensures State() == old(State()) && out == Resume(State(), NodeID)
    {
      out := {};
      if sequenceID in height2Digest {
        var r := height2Digest[sequenceID];
        if r in requestPool {
          var flag := HandleinPrePrepare(r);
          assert requestPool == old(requestPool);
          if flag {
            out := {Prepare(r, sequenceID, NodeID)};
          }
        }
      }
    }
  }
}
