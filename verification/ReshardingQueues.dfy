/** The pool of a shard is a queue: transfers reach blocks in the order in which they arrived. */
module ReshardingQueues {
  import opened Placement
  import opened Transfers
  import opened LeaderSpec
  import opened ReshardingSystem

  /** A proposed block is the longest front of the pool that fits. */
  lemma PacksWhatFits(l: Leader, h: Where, blockSize: nat)
    ensures var l' := ProposeBlock(l, h, blockSize);
      && l'.phase.Proposed? && l'.phase.body + l'.pool == l.pool
      && |l'.phase.body| <= blockSize && (|l'.phase.body| == blockSize || l'.pool == [])
  {
  }

  /** The transfers that an event brings into the pool of shard `i`. */
  ghost function Incoming(s: Sys, e: Event, i: int): seq<Tx> {
    if e.Deliver? && e.k < |s.net| && s.net[e.k].to == i then
      match s.net[e.k]
      case Relay(_, _, _, txs) => txs
      case Inject(_, txs, _) => txs
      case _ => []
    else []
  }

  /** The transfers that an event puts into a block of shard `i`. */
  ghost function Packed(c: Config, s: Sys, e: Event, i: int): seq<Tx>
    requires Enabled(c, s, e)
  {
    if e.Propose? && e.shard == i && Next(c, s, e).leaders[i].phase.Proposed? then Next(c, s, e).leaders[i].phase.body else []
  }

  /** No part of a round touches the pool of shard `i`. */
  ghost predicate NoSplit(es: seq<Event>, i: int) {
    forall k :: 0 <= k < |es| ==> !(es[k].Pass? && es[k].shard == i) && !(es[k].ProposeRound? && es[k].shard == i)
  }

  lemma OneEvent(c: Config, s: Sys, e: Event, i: int)
    requires Enabled(c, s, e) && 0 <= i < |s.leaders| && !(e.Pass? && e.shard == i) && !(e.ProposeRound? && e.shard == i)
    ensures |Next(c, s, e).leaders| == |s.leaders|
    ensures Packed(c, s, e, i) + Next(c, s, e).leaders[i].pool == s.leaders[i].pool + Incoming(s, e, i)
  {
    hide FirstInChannel, AllDone, BarrierOpen, Reads;
    var pool := s.leaders[i].pool;
    assert pool + [] == pool && [] + pool == pool;
    if e.Propose? && e.shard == i {
      PacksWhatFits(s.leaders[i], H(c, s, i), e.blockSize);
      hide ProposeBlock;
    } else if e.Deliver? && s.net[e.k].to == i {
      Received(c, s.leaders[i], s.net[e.k]);
    }
  }

  lemma Received(c: Config, l: Leader, m: Msg)
    ensures Receive(c, l, m).pool == l.pool + match m
                                              case Relay(_, _, _, txs) => txs
                                              case Inject(_, txs, _) => txs
                                              case _ => []
  {
    assert l.pool + [] == l.pool;
  }

  /** What comes into the pool of shard `i` along a run, and what leaves it for blocks. */
  ghost function AllIncoming(c: Config, s: Sys, es: seq<Event>, t: Sys, i: int): seq<Tx>
    requires Run(c, s, es, t, false)
    decreases |es|
  {
    if es == [] then [] else Incoming(s, es[0], i) + AllIncoming(c, Next(c, s, es[0]), es[1..], t, i)
  }

  ghost function AllPacked(c: Config, s: Sys, es: seq<Event>, t: Sys, i: int): seq<Tx>
    requires Run(c, s, es, t, false)
    decreases |es|
  {
    if es == [] then [] else Packed(c, s, es[0], i) + AllPacked(c, Next(c, s, es[0]), es[1..], t, i)
  }

  /** Between two rounds a pool is a queue: what was in it and then arrived, in order, is what went into blocks, in
      order, and then what is left. */
  lemma {:induction false} FirstInFirstOut(c: Config, s: Sys, es: seq<Event>, t: Sys, i: int)
    requires Run(c, s, es, t, false) && 0 <= i < |s.leaders| && NoSplit(es, i)
    ensures |t.leaders| == |s.leaders|
    ensures s.leaders[i].pool + AllIncoming(c, s, es, t, i) == AllPacked(c, s, es, t, i) + t.leaders[i].pool
    decreases |es|
  {
    hide Enabled, Next, Packed, Incoming;
    if es == [] {
      assert s.leaders[i].pool + [] == [] + s.leaders[i].pool;
    } else {
      var e, u := es[0], Next(c, s, es[0]);
      OneEvent(c, s, e, i);
      FirstInFirstOut(c, u, es[1..], t, i);
      var in0, ins, out0, outs := Incoming(s, e, i), AllIncoming(c, u, es[1..], t, i), Packed(c, s, e, i), AllPacked(c, u, es[1..], t, i);
      Regroup(s.leaders[i].pool, in0, ins, out0, u.leaders[i].pool, outs, t.leaders[i].pool);
    }
  }

  lemma Regroup(p: seq<Tx>, in0: seq<Tx>, ins: seq<Tx>, out0: seq<Tx>, mid: seq<Tx>, outs: seq<Tx>, last: seq<Tx>)
    requires p + in0 == out0 + mid && mid + ins == outs + last
    ensures p + (in0 + ins) == out0 + outs + last
  {
    assert p + (in0 + ins) == (p + in0) + ins == out0 + (mid + ins) == out0 + outs + last;
  }
}
