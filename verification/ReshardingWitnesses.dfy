/** Two runs of the re-sharding system: one in which money appears, and one in which a second round is stuck
    because a shard had no block in between. */
module ReshardingWitnesses {
  import opened Placement
  import opened Transfers
  import opened LeaderSpec
  import opened ReshardingSystem
  import opened ReshardingInvariant
  import opened ReshardingSteps
  import opened ReshardingSafety
  import opened ReshardingConservation
  import opened ReshardingLimits

  /** A run from `u` to `t` with the side condition; if `quiet`, shard 0 commits no block in it. */
  ghost predicate Path(u: Sys, t: Sys, quiet: bool) {
    exists es :: Run(Two(), u, es, t, true) && (quiet ==> NoBlock(es))
  }

  ghost predicate NoBlock(es: seq<Event>) {
    forall k :: 0 <= k < |es| ==> es[k] != Commit(0)
  }

  lemma Here(u: Sys)
    ensures Path(u, u, true) && Path(u, u, false)
  {
    assert Run(Two(), u, [], u, true) && NoBlock([]);
  }

  lemma Grow(u: Sys, t: Sys, e: Event, t': Sys, quiet: bool)
    requires Path(u, t, quiet) && Enabled(Two(), t, e) && Next(Two(), t, e) == t'
    requires e.Pass? ==> Heard(Two(), t.leaders[e.shard], e.shard)
    requires quiet ==> e != Commit(0)
    ensures Path(u, t', quiet)
  {
    hide Enabled, Next, Heard;
    var es :| Run(Two(), u, es, t, true) && (quiet ==> NoBlock(es));
    Then(Two(), u, es, t, e, true);
    assert quiet ==> NoBlock(es + [e]);
  }

  lemma TwoIsValid()
    ensures Two().Valid()
  {
    assert Two().accounts[0] == "a" && Two().accounts[1] == "b";
  }

  // ---------------------------------------------------------------- money appears

  /** More than "a" has, to an account of the other shard. */
  const BIG := Tx(9, "a", "b", INIT_BALANCE + 1, false)
  const BIG_RELAYED := Tx(9, "a", "b", INIT_BALANCE + 1, true)

  function Rich(l0: Leader, net: seq<Msg>, injected: seq<Tx>, forged: int): Sys {
    Sys([l0, NewLeader()], net, map[], 0, map[], map[], injected, [], forged)
  }

  function Z1(): Leader { NewLeader().(pool := [BIG]) }
  function Z2(): Leader { NewLeader().(phase := Proposed([BIG], map[])) }
  function Z3(): Leader { NewLeader().(sequenceID := 2) }

  lemma BigInjected()
    ensures Path(Init(Two()), Rich(Z1(), [], [BIG], 0), false)
  {
    hide Path;
    var u := Init(Two());
    assert u.leaders == [NewLeader(), NewLeader()];
    Here(u);
    assert Two().accounts[0] == "a" && Two().accounts[1] == "b";
    assert Path(u, Rich(NewLeader(), [], [], 0), false);
    Grow(u, Rich(NewLeader(), [], [], 0), InjectTxs(0, [BIG]), Rich(NewLeader(), [Inject(0, [BIG], 0)], [BIG], 0), false);
    assert Receive(Two(), NewLeader(), Inject(0, [BIG], 0)) == Z1();
    assert [NewLeader(), NewLeader()][0 := Z1()] == [Z1(), NewLeader()];
    Grow(u, Rich(NewLeader(), [Inject(0, [BIG], 0)], [BIG], 0), Deliver(0), Rich(Z1(), [], [BIG], 0), false);
  }

  /** The deduction is refused, in the block and in the accounting. */
  lemma BigRefused()
    ensures ProposeBlock(Z1(), At(0, Z1(), Two().addr2Shard), 10) == Z2()
    ensures At(0, Z2(), Two().addr2Shard).Forged(map[], [BIG]) == INIT_BALANCE + 1
  {
    assert [BIG][..1] == [BIG] && [BIG][1..] == [] && [BIG][..0] == [];
    assert At(0, Z1(), Two().addr2Shard).ApplyAll(map[], [BIG]) == map[];
    assert At(0, Z2(), Two().addr2Shard).Refuses(map[], BIG);
  }

  lemma BigRelayed()
    ensures var h := At(0, Z2(), Two().addr2Shard);
      Relays(h, [BIG], 1, 2) == [Relay(0, 1, 1, [BIG_RELAYED])] && h.Executed([BIG]) == []
  {
    var h := At(0, Z2(), Two().addr2Shard);
    assert [BIG][..0] == [];
    assert h.RelayTo(1, [BIG]) == [BIG_RELAYED];
    assert Relays(h, [BIG], 1, 1) == [];
  }

  lemma BigCommitted()
    ensures Path(Init(Two()), Rich(Z3(), [Relay(0, 1, 1, [BIG_RELAYED])], [BIG], INIT_BALANCE + 1), false)
  {
    hide Path;
    BigInjected();
    BigRefused();
    BigRelayed();
    assert [Z1(), NewLeader()][0 := Z2()] == [Z2(), NewLeader()];
    Grow(Init(Two()), Rich(Z1(), [], [BIG], 0), Propose(0, 10), Rich(Z2(), [], [BIG], 0), false);
    assert [Z2(), NewLeader()][0 := Z3()] == [Z3(), NewLeader()];
    var s, t := Rich(Z2(), [], [BIG], 0), Rich(Z3(), [Relay(0, 1, 1, [BIG_RELAYED])], [BIG], INIT_BALANCE + 1);
    assert CommitBlock(Z2()) == Z3();
    hide Relays, Where.Executed, Where.Forged;
    assert Next(Two(), s, Commit(0)) == t;
    Grow(Init(Two()), s, Commit(0), t, false);
  }

  /** There is a run from genesis that creates money: a refused deduction is relayed, and home balances plus
      transfers in flight exceed what there was by exactly its value. */
  lemma MoneyAppears()
    ensures exists es, t :: Run(Two(), Init(Two()), es, t, true) && t.forged > 0
              && HomeSum(Two(), t, Two().accounts) + Pending(InFlight(), Two(), t)
                 == |Two().accounts| * INIT_BALANCE + INIT_BALANCE + 1
  {
    BigCommitted();
    var t := Rich(Z3(), [Relay(0, 1, 1, [BIG_RELAYED])], [BIG], INIT_BALANCE + 1);
    var es :| Run(Two(), Init(Two()), es, t, true);
    hide Run, HomeSum, Pending;
    TwoIsValid();
    MoneyIsConserved(Two(), es, t);
  }

  // ---------------------------------------------------------------- a second round is stuck

  const NOTHING := Parcel(map[], [])
  const STAY: map<Addr, int> := map[]

  /** Two leaders between rounds that move nothing. */
  function S(ls: seq<Leader>, net: seq<Msg>, epoch: nat): Sys {
    Sys(ls, net, map[], epoch, map[], map[], [], [], 0)
  }

  /** Delivering the only message. */
  lemma Arrives(u: Sys, ls: seq<Leader>, m: Msg, k: nat, quiet: bool, l: Leader)
    requires Path(u, S(ls, [m], k), quiet) && |ls| == 2 && 0 <= m.to < 2 && l == Receive(Two(), ls[m.to], m)
    ensures Path(u, S(ls[m.to := l], [], k), quiet)
  {
    hide Path;
    assert Without([m], 0) == [];
    hide Receive;
    Grow(u, S(ls, [m], k), Deliver(0), S(ls[m.to := l], [], k), quiet);
  }

  /** A round is published and reaches both shards. */
  lemma Published(u: Sys, ls: seq<Leader>, k: nat, quiet: bool)
    requires Path(u, S(ls, [], k), quiet) && |ls| == 2 && ls[0].round == k && ls[1].round == k
    ensures Path(u, S([HandlePartitionMsg(ls[0], map[]), HandlePartitionMsg(ls[1], map[])], [], k + 1), quiet)
  {
    hide Path;
    assert Publishes(map[], 0) == [] && Publishes(map[], 1) == [Publish(0, map[])];
    assert Publishes(map[], 2) == [Publish(0, map[]), Publish(1, map[])];
    var none: map<Addr, int> := map[];
    assert none + none == none;
    var net := [Publish(0, map[]), Publish(1, map[])];
    Grow(u, S(ls, [], k), PublishRound(map[]), S(ls, net, k + 1), quiet);
    BothHear(u, ls, k + 1, quiet);
  }

  /** The delta arrives at both. */
  lemma BothHear(u: Sys, ls: seq<Leader>, k: nat, quiet: bool)
    requires Path(u, S(ls, [Publish(0, map[]), Publish(1, map[])], k), quiet) && |ls| == 2
    ensures Path(u, S([HandlePartitionMsg(ls[0], map[]), HandlePartitionMsg(ls[1], map[])], [], k), quiet)
  {
    hide Path;
    var net := [Publish(0, map[]), Publish(1, map[])];
    var ls' := ls[0 := HandlePartitionMsg(ls[0], map[])];
    assert Without(net, 0) == [Publish(1, map[])];
    Grow(u, S(ls, net, k), Deliver(0), S(ls', [Publish(1, map[])], k), quiet);
    Arrives(u, ls', Publish(1, map[]), k, quiet, HandlePartitionMsg(ls[1], map[]));
    assert ls'[1 := HandlePartitionMsg(ls[1], map[])] == [HandlePartitionMsg(ls[0], map[]), HandlePartitionMsg(ls[1], map[])];
  }

  /** Shard `i` announces readiness to the other. */
  lemma Announced(u: Sys, ls: seq<Leader>, i: nat, k: nat, quiet: bool)
    requires Path(u, S(ls, [], k), quiet) && |ls| == 2 && i < 2 && ls[i].phase.Idle? && ls[i].partitionOn
    ensures Path(u, S(ls[i := AnnounceReady(ls[i], i)][1 - i := HandlePartitionReady(ls[1 - i], i, ls[i].sequenceID)], [], k), quiet)
  {
    hide Path;
    var m := Ready(i, 1 - i, ls[i].sequenceID);
    assert Readies(i, ls[i].sequenceID, 0) == [];
    assert Readies(i, ls[i].sequenceID, 1) == if i == 0 then [] else [m];
    assert Readies(i, ls[i].sequenceID, 2) == [m];
    assert [] + [m] == [m];
    var ls' := ls[i := AnnounceReady(ls[i], i)];
    Grow(u, S(ls, [], k), Announce(i), S(ls', [m], k), quiet);
    Arrives(u, ls', m, k, quiet, HandlePartitionReady(ls[1 - i], i, ls[i].sequenceID));
  }

  /** Shard `i` passes the barrier and sends an empty parcel. */
  lemma Passed(u: Sys, ls: seq<Leader>, i: nat, k: nat, quiet: bool)
    requires Path(u, S(ls, [], k), quiet) && |ls| == 2 && i < 2 && ls[i].phase.Waiting?
    requires BarrierOpen(ls[i], 2) && Heard(Two(), ls[i], i) && ls[i].pool == [] && LastDelta(ls[i]) == map[]
    ensures Path(u, S(ls[i := ls[i].(phase := Collecting)][1 - i := HandleParcel(ls[1 - i], i, NOTHING, 2)], [], k), quiet)
  {
    hide Path;
    var s, m, h := S(ls, [], k), Accounts(i, 1 - i, NOTHING), At(i, ls[i], Two().addr2Shard);
    assert h.Accounts(map[], 1 - i, ls[i].trie) == map[];
    assert ParcelFor(ls[i], h, 1 - i) == NOTHING;
    assert SendParcels(ls[i], h, 2) == ls[i].(phase := Collecting);
    hide ParcelFor, SendParcels;
    assert Parcels(ls[i], h, 0) == [];
    assert Parcels(ls[i], h, 1) == if i == 0 then [] else [m];
    assert Parcels(ls[i], h, 2) == [m];
    assert [] + [m] == [m];
    var ls' := ls[i := ls[i].(phase := Collecting)];
    hide BarrierOpen, Heard, Parcels;
    Grow(u, s, Pass(i), S(ls', [m], k), quiet);
    Arrives(u, ls', m, k, quiet, HandleParcel(ls[1 - i], i, NOTHING, 2));
  }

  /** The shard after it committed a round that brought it nothing. */
  function Ended(l: Leader): Leader {
    l.(sequenceID := l.sequenceID + 1, round := |l.modifiedMap|, parcels := map[], partitionOn := false,
       partitionReady := {}, collectOver := false, phase := Idle)
  }

  lemma Committed(u: Sys, ls: seq<Leader>, i: nat, k: nat, quiet: bool)
    requires Path(u, S(ls, [], k), quiet) && |ls| == 2 && i < 2 && ls[i].phase.Collecting? && ls[i].collectOver
    requires ls[i].parcels == map[1 - i := NOTHING] && RoundDelta(ls[i]) == map[]
    ensures Path(u, S(ls[i := Ended(ls[i])], [], k), quiet)
  {
    hide Path;
    var l, order := ls[i], [1 - i];
    EmptyRound(l, i);
    var out := l.(phase := Committing(TransferMsg(map[], map[], |l.modifiedMap|)));
    Grow(u, S(ls, [], k), ProposeRound(i, order), S(ls[i := out], [], k), quiet);
    EmptyCommit(out, i);
    assert ls[i := out][i := Ended(l)] == ls[i := Ended(l)];
    Grow(u, S(ls[i := out], [], k), CommitRound(i), S(ls[i := Ended(l)], [], k), quiet);
  }

  lemma EmptyRound(l: Leader, i: nat)
    requires i < 2 && l.parcels == map[1 - i := NOTHING] && RoundDelta(l) == map[]
    ensures Reads([1 - i], l.parcels)
    ensures ProposePartition(l, [1 - i]) == l.(phase := Committing(TransferMsg(map[], map[], |l.modifiedMap|)))
  {
    var order := [1 - i];
    assert order[..0] == [];
    assert forall j :: j in order <==> j in l.parcels;
    assert Collected(l.parcels, order) == [] && CollectedAccounts(l.parcels, order) == map[];
    assert l.pool + [] == l.pool;
  }

  lemma EmptyCommit(l: Leader, i: nat)
    requires l.phase == Committing(TransferMsg(map[], map[], |l.modifiedMap|))
    ensures CommitPartition(l, i, Two().addr2Shard) == Ended(l)
  {
    var h := Where(i, l.pmap + map[], Two().addr2Shard);
    assert l.pmap + map[] == l.pmap;
    assert AddAccounts(l.trie, h, map[]) == l.trie;
  }

  // Shard 0 relays one empty block; then a round comes, and then another.
  function X0(): Leader { NewLeader().(sequenceID := 2) }
  function Y0(): Leader { NewLeader().(seqIDMap := map[0 := 1]) }
  function X1(): Leader {
    X0().(modifiedMap := [map[]], partitionOn := true, partitionReady := {0, 1}, readySeq := map[1 := 1], phase := Waiting)
  }
  function Y1(): Leader {
    Y0().(modifiedMap := [map[]], partitionOn := true, partitionReady := {0, 1}, readySeq := map[0 := 2], phase := Waiting)
  }
  function X2(): Leader { X0().(modifiedMap := [map[]], readySeq := map[1 := 1], round := 1, sequenceID := 3) }
  function Y2(): Leader { Y0().(modifiedMap := [map[]], readySeq := map[0 := 2], round := 1, sequenceID := 2) }
  function X3(): Leader {
    X2().(modifiedMap := [map[], map[]], partitionOn := true, partitionReady := {0, 1}, readySeq := map[1 := 2], phase := Waiting)
  }
  function Y3(): Leader {
    Y2().(modifiedMap := [map[], map[]], partitionOn := true, partitionReady := {0, 1}, readySeq := map[0 := 3], phase := Waiting)
  }

  lemma EmptyBlock()
    ensures Path(Init(Two()), S([X0(), Y0()], [], 0), false)
  {
    Genesis();
    Here(Init(Two()));
    EmptyProposed();
    hide Path, Init, Enabled, Next, Two;
    var s, t := S([NewLeader(), NewLeader()], [], 0), S([NewLeader().(phase := Proposed([], map[])), NewLeader()], [], 0);
    Grow(Init(Two()), s, Propose(0, 10), t, false);
    EmptyCommitted(Init(Two()));
  }

  lemma EmptyProposed()
    ensures var s := S([NewLeader(), NewLeader()], [], 0);
      && Enabled(Two(), s, Propose(0, 10))
      && Next(Two(), s, Propose(0, 10)) == S([NewLeader().(phase := Proposed([], map[])), NewLeader()], [], 0)
  {
    EmptyPacked();
    hide ProposeBlock;
    var l := NewLeader().(phase := Proposed([], map[]));
    assert [NewLeader(), NewLeader()][0 := l] == [l, NewLeader()];
  }

  lemma EmptyCommitted(u: Sys)
    requires Path(u, S([NewLeader().(phase := Proposed([], map[])), NewLeader()], [], 0), false)
    ensures Path(u, S([X0(), Y0()], [], 0), false)
  {
    hide Path;
    var l := NewLeader().(phase := Proposed([], map[]));
    EmptyRelayed();
    assert [l, NewLeader()][0 := X0()] == [X0(), NewLeader()];
    hide Relays, Where.Executed, Where.Forged;
    Grow(u, S([l, NewLeader()], [], 0), Commit(0), S([X0(), NewLeader()], [Relay(0, 1, 1, [])], 0), false);
    Arrives(u, [X0(), NewLeader()], Relay(0, 1, 1, []), 0, false, Y0());
    assert [X0(), NewLeader()][1 := Y0()] == [X0(), Y0()];
  }

  lemma Genesis()
    ensures Init(Two()) == S([NewLeader(), NewLeader()], [], 0)
  {
    assert Init(Two()).leaders == [NewLeader(), NewLeader()];
  }

  lemma EmptyPacked()
    ensures ProposeBlock(NewLeader(), At(0, NewLeader(), Two().addr2Shard), 10) == NewLeader().(phase := Proposed([], map[]))
  {
  }

  lemma EmptyRelayed()
    ensures var h := At(0, NewLeader(), Two().addr2Shard);
      Relays(h, [], 1, 2) == [Relay(0, 1, 1, [])] && h.Executed([]) == [] && h.Forged(map[], []) == 0
  {
    var h := At(0, NewLeader(), Two().addr2Shard);
    assert Relays(h, [], 1, 1) == [];
  }

  /** Both shards wait at the first barrier, which is open at shard 1. */
  lemma FirstRound()
    ensures Path(Init(Two()), S([X1(), Y1()], [], 1), false)
  {
    hide Path;
    var u := Init(Two());
    EmptyBlock();
    Published(u, [X0(), Y0()], 0, false);
    BothAnnounce(u, HandlePartitionMsg(X0(), map[]), HandlePartitionMsg(Y0(), map[]), 1, false);
    assert [] + [STAY] == [STAY];
  }

  /** Both announce, shard 0 first. */
  lemma BothAnnounce(u: Sys, x: Leader, y: Leader, k: nat, quiet: bool)
    requires Path(u, S([x, y], [], k), quiet) && x.phase.Idle? && x.partitionOn && y.phase.Idle? && y.partitionOn
    requires x.partitionReady == {} && y.partitionReady == {}
    ensures Path(u, S([x.(partitionReady := {0, 1}, readySeq := x.readySeq[1 := y.sequenceID], phase := Waiting),
                       y.(partitionReady := {0, 1}, readySeq := y.readySeq[0 := x.sequenceID], phase := Waiting)], [], k), quiet)
  {
    hide Path;
    Announced(u, [x, y], 0, k, quiet);
    var x1, y1 := AnnounceReady(x, 0), HandlePartitionReady(y, 0, x.sequenceID);
    assert [x, y][0 := x1][1 := y1] == [x1, y1];
    Announced(u, [x1, y1], 1, k, quiet);
    var x2, y2 := HandlePartitionReady(x1, 1, y.sequenceID), AnnounceReady(y1, 1);
    assert [x1, y1][1 := y2][0 := x2] == [x2, y2];
    assert {} + {0} + {1} == {0, 1};
  }

  lemma SecondRound()
    ensures Path(S([X1(), Y1()], [], 1), S([X3(), Y3()], [], 2), true)
  {
    hide Path;
    var u := S([X1(), Y1()], [], 1);
    Here(u);
    Handing(u);
    Published(u, [X2(), Y2()], 1, true);
    BothAnnounce(u, HandlePartitionMsg(X2(), map[]), HandlePartitionMsg(Y2(), map[]), 2, true);
    assert [STAY] + [STAY] == [STAY, STAY];
    assert map[1 := 1][1 := 2] == map[1 := 2] && map[0 := 2][0 := 3] == map[0 := 3];
  }

  lemma Barriers()
    ensures BarrierOpen(X1(), 2) && Heard(Two(), X1(), 0)
    ensures BarrierOpen(Y1(), 2) && Heard(Two(), Y1(), 1)
    ensures BarrierOpen(HandleParcel(Y1(), 0, NOTHING, 2), 2) && Heard(Two(), HandleParcel(Y1(), 0, NOTHING, 2), 1)
    ensures |Y3().partitionReady| == 2 && !BarrierOpen(Y3(), 2)
  {
    assert |{0, 1}| == 2;
    assert Y3().readySeq[0] == 3 && Y3().seqIDMap[0] == 1;
  }

  lemma Handing(u: Sys)
    requires Path(u, S([X1(), Y1()], [], 1), true)
    ensures Path(u, S([X2(), Y2()], [], 1), true)
  {
    hide Path;
    Barriers();
    hide BarrierOpen, Heard;
    Passed(u, [X1(), Y1()], 0, 1, true);
    var x1, y1 := X1().(phase := Collecting), HandleParcel(Y1(), 0, NOTHING, 2);
    assert [X1(), Y1()][0 := x1][1 := y1] == [x1, y1];
    HandingBack(u, x1, y1);
  }

  lemma HandingBack(u: Sys, x1: Leader, y1: Leader)
    requires x1 == X1().(phase := Collecting) && y1 == HandleParcel(Y1(), 0, NOTHING, 2)
    requires Path(u, S([x1, y1], [], 1), true)
    ensures Path(u, S([X2(), Y2()], [], 1), true)
  {
    hide Path;
    Barriers();
    hide BarrierOpen, Heard;
    Passed(u, [x1, y1], 1, 1, true);
    var x2, y2 := HandleParcel(x1, 1, NOTHING, 2), y1.(phase := Collecting);
    assert [x1, y1][1 := y2][0 := x2] == [x2, y2];
    Ending(u, x2, y2);
  }

  lemma Ending(u: Sys, x: Leader, y: Leader)
    requires x == X1().(phase := Collecting, parcels := map[1 := NOTHING], collectOver := true)
    requires y == Y1().(phase := Collecting, parcels := map[0 := NOTHING], collectOver := true)
    requires Path(u, S([x, y], [], 1), true)
    ensures Path(u, S([X2(), Y2()], [], 1), true)
  {
    hide Path;
    Committed(u, [x, y], 0, 1, true);
    assert Ended(x) == X2() && [x, y][0 := X2()] == [X2(), y];
    Committed(u, [X2(), y], 1, 1, true);
    assert Ended(y) == Y2() && [X2(), y][1 := Y2()] == [X2(), Y2()];
  }

  /** The situation of IdleShardStopsRounds arises: shard 1 passes its barrier having heard from shard 0, the
      round is completed, a second one is published, everyone has announced, and without a block of shard 0
      the barrier of shard 1 is shut. */
  lemma SecondRoundStuck()
    ensures exists before, s, es, t ::
              && Run(Two(), Init(Two()), before, s, true) && |s.leaders| == 2 && s.leaders[1].phase.Waiting?
              && BarrierOpen(s.leaders[1], 2) && Heard(Two(), s.leaders[1], 1) && 0 in s.leaders[1].seqIDMap
              && Run(Two(), s, es, t, true) && (forall k :: 0 <= k < |es| ==> es[k] != Commit(0))
              && |t.leaders| == 2 && t.leaders[1].round == s.leaders[1].round + 1 && t.epoch == s.epoch + 1
              && t.leaders[1].phase.Waiting? && |t.leaders[1].partitionReady| == 2 && !BarrierOpen(t.leaders[1], 2)
  {
    FirstRound();
    SecondRound();
    var s, t := S([X1(), Y1()], [], 1), S([X3(), Y3()], [], 2);
    var before :| Run(Two(), Init(Two()), before, s, true);
    var es :| Run(Two(), s, es, t, true) && NoBlock(es);
    Barriers();
    hide Run, BarrierOpen, Heard, Init, Two;
    assert s.leaders[1] == Y1() && t.leaders[1] == Y3();
  }
}
