/** One node of a shard's block consensus in plain relay mode: its state as a value and what each message
    makes of it (consensus_shard/pbft_all/messageHandle.go, pbftInside_module.go, toolFuncs.go).  The class
    in PbftConsensusNode.dfy executes the handlers and is proved against these functions. */
module PbftSpec {
  /** A block; hashes are injective, so the parent's hash is modelled by the parent and a request's digest by
      the block it carries.  `content` stands for the body, the state root and the time stamps. */
  datatype Block = Genesis | Block(parent: Block, number: nat, content: int)

  type Digest = Block

  function Number(b: Block): nat {
    if b.Genesis? then 0 else b.number
  }

  datatype Msg =
    | PrePrepare(request: Block, seqId: int)
    | Prepare(digest: Digest, seqId: int, sender: int)
    | Commit(digest: Digest, seqId: int, sender: int)
    | RequestOld(start: int, end: int, sender: int)
    | SendOld(start: int, end: int, past: seq<Block>, receiver: int)

  /** A node.  `votes` count deliveries: the keys of the Go maps are fresh pointers, one for each message.
      `locked` is sequenceLock, `asking` is askForLock, `halted` means that a handler blocks for good or the
      runtime stops because a free mutex is unlocked. */
  datatype Node = Node(
    chain: seq<Block>,                      // the blocks added, without the genesis block
    sequenceID: int,
    requestPool: set<Digest>,
    height2Digest: map<int, Digest>,
    cntPrepareConfirm: map<Digest, seq<int>>,
    cntCommitConfirm: map<Digest, seq<int>>,
    isCommitBroadcast: set<Digest>,
    isReply: set<Digest>,
    locked: bool,
    asking: bool,
    halted: bool)

  function NewNode(): Node {
    Node([], 1, {}, map[], map[], map[], {}, {}, false, false, false)
  }

  datatype Reaction = Reaction(node: Node, out: set<Msg>)

  // ---------------------------------------------------------------- the chain

  function Current(chain: seq<Block>): Block {
    if chain == [] then Genesis else chain[|chain| - 1]
  }

  /** AddBlock refuses every height but the next. */
  function AddBlock(chain: seq<Block>, b: Block): seq<Block> {
    if Number(b) == Number(Current(chain)) + 1 then chain + [b] else chain
  }

  function AddBlocks(chain: seq<Block>, bs: seq<Block>): seq<Block> {
    if bs == [] then chain else AddBlock(AddBlocks(chain, bs[..|bs| - 1]), bs[|bs| - 1])
  }

  predicate IsValidBlock(chain: seq<Block>, b: Block) {
    b.Block? && b.parent == Current(chain)
  }

  // ---------------------------------------------------------------- handlers

  function Votes(cnt: map<Digest, seq<int>>, d: Digest): seq<int> {
    if d in cnt then cnt[d] else []
  }

  /** Propose, once the sequence lock is taken. */
  function OnPropose(p: Node, content: int): Reaction {
    var b := Block(Current(p.chain), Number(Current(p.chain)) + 1, content);
    Reaction(p.(locked := true, requestPool := p.requestPool + {b}, height2Digest := p.height2Digest[p.sequenceID := b]),
             {PrePrepare(b, p.sequenceID)})
  }

  function OnPrePrepare(p: Node, me: int, r: Block, seqId: int): Reaction {
    Reaction(p.(requestPool := p.requestPool + {r}, height2Digest := p.height2Digest[seqId := r]),
             if p.sequenceID >= seqId && IsValidBlock(p.chain, r) then {Prepare(r, seqId, me)} else {})
  }

  /** The main node does not send Prepare, so the others need one vote less besides their own. */
  function PreparesNeeded(me: int, f: nat): int {
    if me != 0 then 2 * f - 1 else 2 * f
  }

  function OnPrepare(p: Node, me: int, f: nat, d: Digest, seqId: int, sender: int): Reaction {
    if d !in p.requestPool || p.sequenceID < seqId then Reaction(p, {}) else
      var votes := Votes(p.cntPrepareConfirm, d) + [sender];
      var p1 := p.(cntPrepareConfirm := p.cntPrepareConfirm[d := votes]);
      if |votes| >= PreparesNeeded(me, f) && d !in p.isCommitBroadcast
      then Reaction(p1.(isCommitBroadcast := p1.isCommitBroadcast + {d}), {Commit(d, seqId, me)})
      else Reaction(p1, {})
  }

  /** Releasing the sequence lock is fatal when it is free. */
  function Unlock(p: Node, me: int): Node {
    if me != 0 then p else if p.locked then p.(locked := false) else p.(halted := true)
  }

  function CountCommit(p: Node, d: Digest, sender: int): Node {
    p.(cntCommitConfirm := p.cntCommitConfirm[d := Votes(p.cntCommitConfirm, d) + [sender]])
  }

  function OnCommit(p: Node, me: int, f: nat, d: Digest, seqId: int, sender: int): Reaction {
    var p1 := CountCommit(p, d, sender);
    if |p1.cntCommitConfirm[d]| >= 2 * f && d !in p1.isReply then Reply(p1, me, d, seqId) else Reaction(p1, {})
  }

  /** Enough commits: add the block, or ask the leader for what is missing. */
  function Reply(p: Node, me: int, d: Digest, seqId: int): Reaction {
    if d in p.requestPool then
      Reaction(Unlock(p.(chain := AddBlock(p.chain, d), isReply := p.isReply + {d}, sequenceID := p.sequenceID + 1), me), {})
    else if p.asking then Reaction(p.(isReply := p.isReply + {d}, halted := true), {})
    else Reaction(Unlock(p.(isReply := p.isReply + {d}, asking := true), me), {RequestOld(p.sequenceID + 1, seqId, me)})
  }

  /** The requests from `height` on, up to `end` or the first that is missing. */
  function Gather(p: Node, height: int, end: int): seq<Block>
    decreases end - height
  {
    if height > end || height !in p.height2Digest || p.height2Digest[height] !in p.requestPool then [] else
      [p.height2Digest[height]] + Gather(p, height + 1, end)
  }

  /** Only the main node answers. */
  function OnRequestOld(p: Node, me: int, start: int, end: int, sender: int): Reaction {
    Reaction(p, if me == 0 then {SendOld(start, end, Gather(p, start, end), sender)} else {})
  }

  function Indexed(m: map<int, Digest>, start: int, past: seq<Block>): map<int, Digest> {
    if past == [] then m else Indexed(m, start, past[..|past| - 1])[start + |past| - 1 := past[|past| - 1]]
  }

  /** HandleforSequentialRequest adds the blocks only if there are as many as there are heights; the rest
      happens in any case. */
  function CaughtUp(p: Node, start: int, end: int, past: seq<Block>): Node {
    p.(chain := if end - start + 1 == |past| then AddBlocks(p.chain, past) else p.chain,
       requestPool := p.requestPool + (set b | b in past),
       height2Digest := Indexed(p.height2Digest, start, past),
       isReply := p.isReply + (set b | b in past),
       sequenceID := end + 1)
  }

  /** The pending pre-prepare for the present sequence id, if there is one. */
  function Resume(p: Node, me: int): set<Msg> {
    if p.sequenceID in p.height2Digest && p.height2Digest[p.sequenceID] in p.requestPool
       && IsValidBlock(p.chain, p.height2Digest[p.sequenceID])
    then {Prepare(p.height2Digest[p.sequenceID], p.sequenceID, me)} else {}
  }

  /** Releasing askForLock is fatal when it is free. */
  function OnSendOld(p: Node, me: int, start: int, end: int, past: seq<Block>): Reaction {
    var p1 := CaughtUp(p, start, end, past);
    Reaction(if p.asking then p1.(asking := false) else p1.(halted := true), Resume(p1, me))
  }

  function React(p: Node, me: int, f: nat, m: Msg): Reaction {
    match m
    case PrePrepare(r, q) => OnPrePrepare(p, me, r, q)
    case Prepare(d, q, sender) => OnPrepare(p, me, f, d, q, sender)
    case Commit(d, q, sender) => OnCommit(p, me, f, d, q, sender)
    case RequestOld(start, end, sender) => OnRequestOld(p, me, start, end, sender)
    case SendOld(start, end, past, _) => OnSendOld(p, me, start, end, past)
  }
}
