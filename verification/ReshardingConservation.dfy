/** Nothing is lost: every injected transfer is pending in exactly one place or executed, and money is
    conserved up to the deductions that were refused but relayed all the same. */
module ReshardingConservation {
  import opened Placement
  import opened Transfers
  import opened LeaderSpec
  import opened ReshardingSystem
  import opened ReshardingInvariant
  import opened ReshardingSteps
  import opened ReshardingSafety

  // ---------------------------------------------------------------- where transfers can be

  function ParcelsMass(w: Tx -> int, parcels: map<int, Parcel>, n: nat): int {
    if n == 0 then 0 else
      ParcelsMass(w, parcels, n - 1) + if n - 1 in parcels then Mass(w, parcels[n - 1].txs) else 0
  }

  /** The transfers at a leader: in the pool, in the block that is out, in the parcels not yet merged. */
  function LeaderMass(w: Tx -> int, l: Leader, n: nat): int {
    Mass(w, l.pool)
    + (if l.phase.Proposed? then Mass(w, l.phase.body) else 0)
    + (if l.phase.Committing? then 0 else ParcelsMass(w, l.parcels, n))
  }

  function LeadersMass(w: Tx -> int, ls: seq<Leader>, n: nat): int {
    if ls == [] then 0 else LeadersMass(w, ls[..|ls| - 1], n) + LeaderMass(w, ls[|ls| - 1], n)
  }

  function MsgMass(w: Tx -> int, m: Msg): int {
    match m
    case Relay(_, _, _, txs) => Mass(w, txs)
    case Accounts(_, _, p) => Mass(w, p.txs)
    case Inject(_, txs, _) => Mass(w, txs)
    case _ => 0
  }

  function NetMass(w: Tx -> int, net: seq<Msg>): int {
    if net == [] then 0 else NetMass(w, net[..|net| - 1]) + MsgMass(w, net[|net| - 1])
  }

  /** The weight of all transfers pending anywhere. */
  function Pending(w: Tx -> int, c: Config, s: Sys): int {
    LeadersMass(w, s.leaders, c.shards) + NetMass(w, s.net)
  }

  // ---------------------------------------------------------------- sums

  lemma {:induction false} LeadersMassUpdate(w: Tx -> int, ls: seq<Leader>, n: nat, i: nat, l': Leader)
    requires i < |ls|
    ensures LeadersMass(w, ls[i := l'], n) == LeadersMass(w, ls, n) - LeaderMass(w, ls[i], n) + LeaderMass(w, l', n)
    decreases |ls|
  {
    hide LeaderMass;
    var ls' := ls[i := l'];
    if i == |ls| - 1 {
      assert ls'[..|ls| - 1] == ls[..|ls| - 1];
    } else {
      assert ls'[..|ls| - 1] == ls[..|ls| - 1][i := l'];
      LeadersMassUpdate(w, ls[..|ls| - 1], n, i, l');
    }
  }

  lemma {:induction false} NetMassAppend(w: Tx -> int, a: seq<Msg>, b: seq<Msg>)
    ensures NetMass(w, a + b) == NetMass(w, a) + NetMass(w, b)
    decreases |b|
  {
    hide MsgMass;
    if b == [] {
      assert a + b == a;
    } else {
      assert (a + b)[..|a + b| - 1] == a + b[..|b| - 1];
      NetMassAppend(w, a, b[..|b| - 1]);
    }
  }

  lemma NetMassWithout(w: Tx -> int, net: seq<Msg>, k: nat)
    requires k < |net|
    ensures NetMass(w, Without(net, k)) == NetMass(w, net) - MsgMass(w, net[k])
  {
    hide MsgMass, NetMass;
    NetMassAppend(w, net[..k], net[k + 1..]);
    OneMsg(w, net[..k], net[k]);
    assert net[..k + 1] == net[..k] + [net[k]];
    NetMassAppend(w, net[..k + 1], net[k + 1..]);
    assert net == net[..k + 1] + net[k + 1..];
  }

  lemma {:induction false} ParcelsMassAdd(w: Tx -> int, parcels: map<int, Parcel>, n: nat, j: int, p: Parcel)
    requires j !in parcels
    ensures ParcelsMass(w, parcels[j := p], n) == ParcelsMass(w, parcels, n) + if 0 <= j < n then Mass(w, p.txs) else 0
    decreases n
  {
    hide Mass;
    if n > 0 {
      ParcelsMassAdd(w, parcels, n - 1, j, p);
    }
  }

  lemma {:induction false} ParcelsMassNone(w: Tx -> int, n: nat)
    ensures ParcelsMass(w, map[], n) == 0
  {
    if n > 0 {
      ParcelsMassNone(w, n - 1);
    }
  }

  /** Merging the parcels in any order yields all their transfers. */
  lemma {:induction false} CollectedMass(w: Tx -> int, parcels: map<int, Parcel>, order: seq<int>, n: nat)
    requires Reads(order, parcels) && forall j :: j in parcels ==> 0 <= j < n
    ensures Mass(w, Collected(parcels, order)) == ParcelsMass(w, parcels, n)
    decreases |order|
  {
    if order == [] {
      assert parcels == map[];
      ParcelsMassNone(w, n);
    } else {
      var init, j := order[..|order| - 1], order[|order| - 1];
      var rest := map x | x in parcels && x != j :: parcels[x];
      assert j in order;
      ReadsInit(order, parcels, rest);
      CollectedMass(w, rest, init, n);
      CollectedSame(parcels, rest, init);
      assert parcels == rest[j := parcels[j]];
      ParcelsMassAdd(w, rest, n, j, parcels[j]);
      MassAppend(w, Collected(parcels, init), parcels[j].txs);
    }
  }

  lemma ReadsInit(order: seq<int>, parcels: map<int, Parcel>, rest: map<int, Parcel>)
    requires order != [] && Reads(order, parcels)
    requires rest == map x | x in parcels && x != order[|order| - 1] :: parcels[x]
    ensures Reads(order[..|order| - 1], rest)
  {
    var init, last := order[..|order| - 1], order[|order| - 1];
    forall j ensures j in init <==> j in rest {
      assert j in order <==> j in init || j == last;
      if j in init {
        var p :| 0 <= p < |init| && init[p] == j;
        assert order[p] != order[|order| - 1];
      }
    }
  }

  lemma {:induction false} CollectedSame(parcels: map<int, Parcel>, rest: map<int, Parcel>, order: seq<int>)
    requires forall j :: j in order ==> j in parcels && j in rest && parcels[j] == rest[j]
    ensures Collected(parcels, order) == Collected(rest, order)
    decreases |order|
  {
    if order != [] {
      assert order[|order| - 1] in order;
      CollectedSame(parcels, rest, order[..|order| - 1]);
    }
  }

  // ---------------------------------------------------------------- batches of messages

  lemma {:induction false} ReadiesMass(w: Tx -> int, me: int, q: nat, n: nat)
    ensures NetMass(w, Readies(me, q, n)) == 0
    decreases n
  {
    if n > 0 {
      ReadiesMass(w, me, q, n - 1);
      NetMassAppend(w, Readies(me, q, n - 1), if n - 1 == me then [] else [Ready(me, n - 1, q)]);
      assert n - 1 != me ==> [Ready(me, n - 1, q)][..0] == [];
    }
  }

  lemma {:induction false} PublishesMass(w: Tx -> int, delta: map<Addr, int>, n: nat)
    ensures NetMass(w, Publishes(delta, n)) == 0
    decreases n
  {
    if n > 0 {
      PublishesMass(w, delta, n - 1);
      assert Publishes(delta, n)[..|Publishes(delta, n)| - 1] == Publishes(delta, n - 1);
    }
  }

  lemma OneMsg(w: Tx -> int, net: seq<Msg>, m: Msg)
    ensures NetMass(w, net + [m]) == NetMass(w, net) + MsgMass(w, m)
  {
    assert (net + [m])[..|net|] == net;
  }

  lemma EmptyNet(w: Tx -> int)
    ensures NetMass(w, []) == 0
  {
  }

  lemma {:induction false} ParcelsSentMass(w: Tx -> int, l: Leader, h: Where, n: nat)
    ensures NetMass(w, Parcels(l, h, n)) == SumTo(n, h.me, SentMass(h, LastDelta(l), l.pool, w))
    decreases n
  {
    hide Mass, NetMass, Where.Sent, Where.Accounts;
    var init := if n == 0 then [] else Parcels(l, h, n - 1);
    if n == 0 {
      EmptyNet(w);
    } else if n - 1 == h.me {
      ParcelsSentMass(w, l, h, n - 1);
      assert Parcels(l, h, n) == init;
    } else {
      ParcelsSentMass(w, l, h, n - 1);
      OneMsg(w, init, Accounts(h.me, n - 1, ParcelFor(l, h, n - 1)));
    }
  }

  function RelayMass(w: Tx -> int, h: Where, body: seq<Tx>): int -> int {
    k => Mass(w, h.RelayTo(k, body))
  }

  lemma {:induction false} RelaysMass(w: Tx -> int, h: Where, body: seq<Tx>, q: nat, n: nat)
    ensures NetMass(w, Relays(h, body, q, n)) == SumTo(n, h.me, RelayMass(w, h, body))
    decreases n
  {
    hide Mass, NetMass, Where.RelayTo;
    var init := if n == 0 then [] else Relays(h, body, q, n - 1);
    if n == 0 {
      EmptyNet(w);
    } else if n - 1 == h.me {
      RelaysMass(w, h, body, q, n - 1);
      assert Relays(h, body, q, n) == init;
    } else {
      RelaysMass(w, h, body, q, n - 1);
      OneMsg(w, init, Relay(h.me, n - 1, q, h.RelayTo(n - 1, body)));
    }
  }

  /** The weight of the relayed halves of a block. */
  function CrossMass(w: Tx -> int, h: Where, body: seq<Tx>): int {
    if body == [] then 0 else
      var tx := body[|body| - 1];
      CrossMass(w, h, body[..|body| - 1]) + if h.Crosses(tx) then w(tx.(relayed := true)) else 0
  }

  lemma {:induction false} SumToBump(n: nat, me: int, f: int -> int, g: int -> int, j: int, d: int)
    requires forall k :: 0 <= k < n ==> g(k) == f(k) + if k == j then d else 0
    ensures SumTo(n, me, g) == SumTo(n, me, f) + if 0 <= j < n && j != me then d else 0
    decreases n
  {
    if n > 0 {
      SumToBump(n - 1, me, f, g, j, d);
    }
  }

  lemma {:induction false} SumToZero(n: nat, me: int, f: int -> int)
    requires forall k :: 0 <= k < n ==> f(k) == 0
    ensures SumTo(n, me, f) == 0
    decreases n
  {
    if n > 0 {
      SumToZero(n - 1, me, f);
    }
  }

  /** Sorted by destination, the relayed halves are all there, once each. */
  lemma {:induction false} RelayedOnce(w: Tx -> int, h: Where, body: seq<Tx>, n: nat)
    requires forall a :: 0 <= h.Of(a) < n
    ensures SumTo(n, h.me, RelayMass(w, h, body)) == CrossMass(w, h, body)
    decreases |body|
  {
    if body == [] {
      SumToZero(n, h.me, RelayMass(w, h, body));
    } else {
      var init, tx := body[..|body| - 1], body[|body| - 1];
      RelayedOnce(w, h, init, n);
      assert body == init + [tx];
      RelayedOneMore(w, h, init, tx, n);
    }
  }

  lemma RelayedOneMore(w: Tx -> int, h: Where, init: seq<Tx>, tx: Tx, n: nat)
    requires forall a :: 0 <= h.Of(a) < n
    ensures SumTo(n, h.me, RelayMass(w, h, init + [tx]))
         == SumTo(n, h.me, RelayMass(w, h, init)) + if h.Crosses(tx) then w(tx.(relayed := true)) else 0
  {
    var j, d := h.Of(tx.recipient), if h.Crosses(tx) then w(tx.(relayed := true)) else 0;
    hide Mass, SumTo, Where.RelayTo;
    forall k | 0 <= k < n
      ensures RelayMass(w, h, init + [tx])(k) == RelayMass(w, h, init)(k) + if k == j then d else 0
    {
      RelayOneMore(w, h, init, tx, k);
    }
    SumToBump(n, h.me, RelayMass(w, h, init), RelayMass(w, h, init + [tx]), j, d);
  }

  lemma RelayOneMore(w: Tx -> int, h: Where, init: seq<Tx>, tx: Tx, k: int)
    ensures Mass(w, h.RelayTo(k, init + [tx])) == Mass(w, h.RelayTo(k, init))
              + if h.Crosses(tx) && h.Of(tx.recipient) == k then w(tx.(relayed := true)) else 0
  {
    assert (init + [tx])[..|init|] == init;
    MassMaybe(w, h.RelayTo(k, init), h.Crosses(tx) && h.Of(tx.recipient) == k, tx.(relayed := true));
  }

  // ---------------------------------------------------------------- one event

  /** How an event changes what is pending. */
  ghost function PendingChange(w: Tx -> int, c: Config, s: Sys, e: Event): int
    requires Enabled(c, s, e)
  {
    match e
    case InjectTxs(_, txs) => Mass(w, txs)
    case Commit(i) => CrossMass(w, H(c, s, i), s.leaders[i].phase.body) - Mass(w, s.leaders[i].phase.body)
    case _ => 0
  }

  /** The change is that of one leader and of the messages added. */
  lemma LocalChange(w: Tx -> int, c: Config, s: Sys, s': Sys, i: nat, l': Leader, more: seq<Msg>)
    requires i < |s.leaders| && s'.leaders == s.leaders[i := l'] && s'.net == s.net + more
    ensures Pending(w, c, s') == Pending(w, c, s) + LeaderMass(w, l', c.shards) - LeaderMass(w, s.leaders[i], c.shards)
                                 + NetMass(w, more)
  {
    hide LeaderMass, LeadersMass, NetMass;
    LeadersMassUpdate(w, s.leaders, c.shards, i, l');
    NetMassAppend(w, s.net, more);
  }

  lemma DeliverChange(w: Tx -> int, c: Config, s: Sys, k: nat)
    requires Inv(c, s) && Enabled(c, s, Deliver(k))
    ensures Pending(w, c, Next(c, s, Deliver(k))) == Pending(w, c, s)
  {
    hide LeadersMass, NetMass, Inv, FirstInChannel;
    var m, l := s.net[k], s.leaders[s.net[k].to];
    LeadersMassUpdate(w, s.leaders, c.shards, m.to, Receive(c, l, m));
    NetMassWithout(w, s.net, k);
    ReceivedMass(w, c, s, k);
  }

  lemma ReceivedMass(w: Tx -> int, c: Config, s: Sys, k: nat)
    requires Inv(c, s) && Enabled(c, s, Deliver(k))
    ensures LeaderMass(w, Receive(c, s.leaders[s.net[k].to], s.net[k]), c.shards)
         == LeaderMass(w, s.leaders[s.net[k].to], c.shards) + MsgMass(w, s.net[k])
  {
    var m, l := s.net[k], s.leaders[s.net[k].to];
    assert MsgOk(R(c, s), s.leaders, m) && LeaderOk(R(c, s), m.to, l);
    hide Mass, Inv, LeadersOk, PairsOk, MsgsOk, Ordered, ParcelOk, FirstInChannel;
    match m
    case Relay(_, _, _, txs) => MassAppend(w, l.pool, txs);
    case Inject(_, txs, _) => MassAppend(w, l.pool, txs);
    case Accounts(j, _, p) => ParcelsMassAdd(w, l.parcels, c.shards, j, p);
    case _ =>
  }

  lemma CommitChange(w: Tx -> int, c: Config, s: Sys, i: int)
    requires Inv(c, s) && Enabled(c, s, Commit(i))
    ensures Pending(w, c, Next(c, s, Commit(i))) == Pending(w, c, s) + PendingChange(w, c, s, Commit(i))
  {
    var l, h := s.leaders[i], H(c, s, i);
    assert LeaderOk(R(c, s), i, l);
    forall a ensures 0 <= h.Of(a) < c.shards {
      HomesInRange(c, s, i, a);
    }
    hide Mass, LeadersMass, NetMass, Inv, Relays;
    RelaysMass(w, h, l.phase.body, l.sequenceID, c.shards);
    RelayedOnce(w, h, l.phase.body, c.shards);
    assert |s.leaders| == c.shards by { SameSize(c, s); }
    LocalChange(w, c, s, Next(c, s, Commit(i)), i, CommitBlock(l), Relays(h, l.phase.body, l.sequenceID, |s.leaders|));
  }

  lemma ProposeChange(w: Tx -> int, c: Config, s: Sys, i: int, blockSize: nat)
    requires Enabled(c, s, Propose(i, blockSize))
    ensures Pending(w, c, Next(c, s, Propose(i, blockSize))) == Pending(w, c, s)
  {
    var l, n := s.leaders[i], Min(blockSize, |s.leaders[i].pool|);
    MassAppend(w, l.pool[..n], l.pool[n..]);
    assert l.pool == l.pool[..n] + l.pool[n..];
    hide Mass, LeadersMass, ParcelsMass;
    EmptyNet(w);
    assert s.net + [] == s.net;
    LocalChange(w, c, s, Next(c, s, Propose(i, blockSize)), i, ProposeBlock(l, H(c, s, i), blockSize), []);
  }

  lemma AnnounceChange(w: Tx -> int, c: Config, s: Sys, i: int)
    requires Enabled(c, s, Announce(i))
    ensures Pending(w, c, Next(c, s, Announce(i))) == Pending(w, c, s)
  {
    hide Mass, LeadersMass, NetMass, ParcelsMass, Readies;
    var l := s.leaders[i];
    ReadiesMass(w, i, l.sequenceID, |s.leaders|);
    LocalChange(w, c, s, Next(c, s, Announce(i)), i, AnnounceReady(l, i), Readies(i, l.sequenceID, |s.leaders|));
  }

  lemma PassChange(w: Tx -> int, c: Config, s: Sys, i: int)
    requires Inv(c, s) && Enabled(c, s, Pass(i))
    ensures Pending(w, c, Next(c, s, Pass(i))) == Pending(w, c, s)
  {
    SameSize(c, s);
    hide Mass, LeadersMass, NetMass, ParcelsMass, Parcels, Where.Kept, SumTo, SentMass, Inv, BarrierOpen;
    var l, h := s.leaders[i], H(c, s, i);
    SplitMass(h, LastDelta(l), |s.leaders|, l.pool, w);
    ParcelsSentMass(w, l, h, |s.leaders|);
    LocalChange(w, c, s, Next(c, s, Pass(i)), i, SendParcels(l, h, |s.leaders|), Parcels(l, h, |s.leaders|));
  }

  lemma ProposeRoundChange(w: Tx -> int, c: Config, s: Sys, i: int, order: seq<int>)
    requires Inv(c, s) && Enabled(c, s, ProposeRound(i, order))
    ensures Pending(w, c, Next(c, s, ProposeRound(i, order))) == Pending(w, c, s)
  {
    var l := s.leaders[i];
    assert LeaderOk(R(c, s), i, l);
    hide Mass, LeadersMass, NetMass, ParcelsMass, Collected, CollectedAccounts, Inv;
    CollectedMass(w, l.parcels, order, c.shards);
    MassAppend(w, l.pool, Collected(l.parcels, order));
    EmptyNet(w);
    assert s.net + [] == s.net;
    LocalChange(w, c, s, Next(c, s, ProposeRound(i, order)), i, ProposePartition(l, order), []);
  }

  lemma CommitRoundChange(w: Tx -> int, c: Config, s: Sys, i: int)
    requires Enabled(c, s, CommitRound(i))
    ensures Pending(w, c, Next(c, s, CommitRound(i))) == Pending(w, c, s)
  {
    hide Mass, LeadersMass, NetMass, ParcelsMass, AddAccounts;
    ParcelsMassNone(w, c.shards);
    EmptyNet(w);
    assert s.net + [] == s.net;
    LocalChange(w, c, s, Next(c, s, CommitRound(i)), i, CommitPartition(s.leaders[i], i, c.addr2Shard), []);
  }

  /** Every event but injections and committed blocks leaves what is pending as it is, by any measure. */
  lemma PendingStep(w: Tx -> int, c: Config, s: Sys, e: Event)
    requires Inv(c, s) && Enabled(c, s, e)
    ensures Pending(w, c, Next(c, s, e)) == Pending(w, c, s) + PendingChange(w, c, s, e)
  {
    match e
    case InjectTxs(i, txs) => OneMsg(w, s.net, Inject(i, txs, s.epoch));
    case PublishRound(delta) =>
      PublishesMass(w, delta, |s.leaders|);
      NetMassAppend(w, s.net, Publishes(delta, |s.leaders|));
    case Deliver(k) => DeliverChange(w, c, s, k);
    case Propose(i, blockSize) => ProposeChange(w, c, s, i, blockSize);
    case Commit(i) => CommitChange(w, c, s, i);
    case Announce(i) => AnnounceChange(w, c, s, i);
    case Pass(i) => PassChange(w, c, s, i);
    case ProposeRound(i, order) => ProposeRoundChange(w, c, s, i, order);
    case CommitRound(i) => CommitRoundChange(w, c, s, i);
  }

  // ---------------------------------------------------------------- exactly once

  /** A measure that does not tell the two halves of a transfer apart. */
  ghost predicate FlagBlind(w: Tx -> int) {
    forall tx: Tx :: w(tx.(relayed := true)) == w(tx)
  }

  /** A block's transfers are relayed or executed. */
  lemma {:induction false} BlockSorted(w: Tx -> int, h: Where, body: seq<Tx>)
    requires FlagBlind(w)
    ensures CrossMass(w, h, body) + Mass(w, h.Executed(body)) == Mass(w, body)
    decreases |body|
  {
    if body != [] {
      var init, tx := body[..|body| - 1], body[|body| - 1];
      BlockSorted(w, h, init);
      MassMaybe(w, h.Executed(init), !h.Crosses(tx), tx);
    }
  }

  lemma {:induction false} Balanced(w: Tx -> int, c: Config, s: Sys, es: seq<Event>, t: Sys)
    requires FlagBlind(w) && Inv(c, s) && Run(c, s, es, t, true)
    ensures Pending(w, c, t) + Mass(w, t.executed) - Mass(w, t.injected)
         == Pending(w, c, s) + Mass(w, s.executed) - Mass(w, s.injected)
    decreases |es|
  {
    hide Inv, Mass, Pending, FlagBlind;
    if es != [] {
      StepInv(c, s, es[0]);
      BalancedStep(w, c, s, es[0]);
      Balanced(w, c, Next(c, s, es[0]), es[1..], t);
    }
  }

  lemma BalancedStep(w: Tx -> int, c: Config, s: Sys, e: Event)
    requires FlagBlind(w) && Inv(c, s) && Enabled(c, s, e)
    ensures var t := Next(c, s, e);
      Pending(w, c, t) + Mass(w, t.executed) - Mass(w, t.injected)
      == Pending(w, c, s) + Mass(w, s.executed) - Mass(w, s.injected)
  {
    hide Inv, Mass, Pending, FlagBlind;
    PendingStep(w, c, s, e);
    match e
    case InjectTxs(i, txs) => MassAppend(w, s.injected, txs);
    case Commit(i) =>
      BlockSorted(w, H(c, s, i), s.leaders[i].phase.body);
      MassAppend(w, s.executed, H(c, s, i).Executed(s.leaders[i].phase.body));
    case _ =>
  }

  lemma {:induction false} NothingAtStart(w: Tx -> int, c: Config, n: nat)
    requires n <= c.shards
    ensures LeadersMass(w, Init(c).leaders[..n], c.shards) == 0
    decreases n
  {
    ParcelsMassNone(w, c.shards);
    if n > 0 {
      NothingAtStart(w, c, n - 1);
      assert Init(c).leaders[..n][..n - 1] == Init(c).leaders[..n - 1];
    }
  }

  /** By any measure blind to the relay flag, what was injected is what was executed plus what is pending
      somewhere: no transfer is lost and none is duplicated, in any run. */
  lemma ExactlyOnce(w: Tx -> int, c: Config, es: seq<Event>, t: Sys)
    requires FlagBlind(w) && c.Valid() && Run(c, Init(c), es, t, true)
    ensures Mass(w, t.injected) == Mass(w, t.executed) + Pending(w, c, t)
  {
    InitInv(c);
    Balanced(w, c, Init(c), es, t);
    NothingAtStart(w, c, c.shards);
    assert Init(c).leaders[..c.shards] == Init(c).leaders;
  }

  // ---------------------------------------------------------------- money

  /** The value a relayed transfer carries between two shards. */
  function InFlight(): Tx -> int {
    (tx: Tx) => if tx.relayed then tx.value else 0
  }

  function LedgerSum(g: Trie, accounts: seq<Addr>): int {
    if accounts == [] then 0 else
      LedgerSum(g, accounts[..|accounts| - 1]) + Balance(g, accounts[|accounts| - 1])
  }

  /** The sum of the balances at the accounts' homes. */
  function HomeSum(c: Config, s: Sys, accounts: seq<Addr>): int {
    if accounts == [] then 0 else
      HomeSum(c, s, accounts[..|accounts| - 1]) + HomeBalance(c, s, accounts[|accounts| - 1])
  }

  lemma {:induction false} SumMatches(c: Config, s: Sys, g: Trie, accounts: seq<Addr>)
    requires Matches(c, s, g)
    ensures HomeSum(c, s, accounts) == LedgerSum(g, accounts)
    decreases |accounts|
  {
    if accounts != [] {
      SumMatches(c, s, g, accounts[..|accounts| - 1]);
    }
  }

  ghost predicate Distinct(accounts: seq<Addr>) {
    forall p, q :: 0 <= p < q < |accounts| ==> accounts[p] != accounts[q]
  }

  /** Writing one account changes the sum by the change of that account. */
  lemma {:induction false} SumWrite(g: Trie, accounts: seq<Addr>, a: Addr, v: int)
    requires Distinct(accounts)
    ensures LedgerSum(g[a := v], accounts) == LedgerSum(g, accounts) + if a in accounts then v - Balance(g, a) else 0
    decreases |accounts|
  {
    if accounts != [] {
      var init, last := accounts[..|accounts| - 1], accounts[|accounts| - 1];
      SumWrite(g, init, a, v);
      assert a in accounts <==> a in init || a == last;
      if a in init {
        var p :| 0 <= p < |init| && init[p] == a;
        assert accounts[p] != accounts[|accounts| - 1];
      }
    }
  }

  /** One transfer: the ledger and the value in flight change together, except that a refused deduction
      of a relayed transfer creates its value. */
  lemma TransferMoney(h: Where, g: Trie, tx: Tx, accounts: seq<Addr>)
    requires Distinct(accounts) && tx.sender in accounts && tx.recipient in accounts
    ensures LedgerSum(LedgerApply(h, g, tx), accounts) - LedgerSum(g, accounts)
            + (if h.Crosses(tx) then tx.value else 0) - InFlight()(tx)
         == if h.Crosses(tx) && Balance(g, tx.sender) < tx.value then tx.value else 0
  {
    hide LedgerSum, Distinct;
    var t := if tx.relayed then g else g[tx.sender := Balance(g, tx.sender) - tx.value];
    SumWrite(g, accounts, tx.sender, Balance(g, tx.sender) - tx.value);
    SumWrite(t, accounts, tx.recipient, Balance(t, tx.recipient) + tx.value);
  }

  lemma {:induction false} BlockMoney(h: Where, trie: Trie, g: Trie, body: seq<Tx>, accounts: seq<Addr>)
    requires Distinct(accounts)
    requires forall tx :: tx in body ==> !h.Misrouted(tx) && tx.sender in accounts && tx.recipient in accounts
    requires forall a :: h.Here(a) ==> Balance(trie, a) == Balance(g, a)
    ensures LedgerSum(LedgerApplyAll(h, g, body), accounts) - LedgerSum(g, accounts)
            + CrossMass(InFlight(), h, body) - Mass(InFlight(), body)
         == h.Forged(trie, body)
    decreases |body|
  {
    hide LedgerSum, Distinct;
    if body != [] {
      var init, tx := body[..|body| - 1], body[|body| - 1];
      assert tx in body;
      BlockMoney(h, trie, g, init, accounts);
      BlockMatches(h, trie, g, init);
      TransferMoney(h, LedgerApplyAll(h, g, init), tx, accounts);
    }
  }

  lemma MoneyStep(c: Config, s: Sys, g: Trie, e: Event)
    requires Inv(c, s) && Enabled(c, s, e) && Matches(c, s, g)
    ensures var t := Next(c, s, e);
      LedgerSum(LedgerNext(c, s, g, e), c.accounts) + Pending(InFlight(), c, t) - t.forged
      == LedgerSum(g, c.accounts) + Pending(InFlight(), c, s) - s.forged
  {
    PendingStep(InFlight(), c, s, e);
    if e.Commit? {
      CommitMoney(c, s, g, e.shard);
    } else if e.InjectTxs? {
      InjectedNotInFlight(e.txs);
    }
  }

  lemma {:induction false} InjectedNotInFlight(txs: seq<Tx>)
    requires forall tx :: tx in txs ==> !tx.relayed
    ensures Mass(InFlight(), txs) == 0
    decreases |txs|
  {
    if txs != [] {
      assert txs[|txs| - 1] in txs;
      InjectedNotInFlight(txs[..|txs| - 1]);
    }
  }

  lemma CommitMoney(c: Config, s: Sys, g: Trie, i: int)
    requires Inv(c, s) && Enabled(c, s, Commit(i)) && Matches(c, s, g)
    ensures LedgerSum(LedgerNext(c, s, g, Commit(i)), c.accounts) - LedgerSum(g, c.accounts)
            + PendingChange(InFlight(), c, s, Commit(i))
         == H(c, s, i).Forged(s.leaders[i].trie, s.leaders[i].phase.body)
  {
    var r, l, h := R(c, s), s.leaders[i], H(c, s, i);
    assert LeaderOk(r, i, l);
    forall a | h.Here(a) ensures Balance(l.trie, a) == Balance(g, a) {
      HomeIsHere(c, s, i, a);
      assert HomeBalance(c, s, a) == Balance(g, a);
    }
    BlockMoney(h, l.trie, g, l.phase.body, c.accounts);
  }

  lemma {:induction false} MoneyRun(c: Config, s: Sys, g: Trie, es: seq<Event>, t: Sys)
    requires Inv(c, s) && Matches(c, s, g) && Run(c, s, es, t, true)
    ensures LedgerSum(LedgerAfter(c, s, g, es, t), c.accounts) + Pending(InFlight(), c, t) - t.forged
         == LedgerSum(g, c.accounts) + Pending(InFlight(), c, s) - s.forged
    decreases |es|
  {
    hide Inv, Matches, LedgerSum, Pending, LedgerNext;
    if es != [] {
      StepInv(c, s, es[0]);
      LedgerStep(c, s, g, es[0]);
      MoneyStep(c, s, g, es[0]);
      MoneyRun(c, Next(c, s, es[0]), LedgerNext(c, s, g, es[0]), es[1..], t);
    }
  }

  lemma {:induction false} InitialSum(accounts: seq<Addr>)
    ensures LedgerSum(map[], accounts) == |accounts| * INIT_BALANCE
    decreases |accounts|
  {
    if accounts != [] {
      InitialSum(accounts[..|accounts| - 1]);
    }
  }

  /** Conservation with exact accounting: the balances at home plus the value in flight between shards are
      the initial balances plus the value of exactly those cross-shard transfers whose deduction was
      refused and which were relayed all the same. */
  lemma MoneyIsConserved(c: Config, es: seq<Event>, t: Sys)
    requires c.Valid() && Run(c, Init(c), es, t, true)
    ensures HomeSum(c, t, c.accounts) + Pending(InFlight(), c, t) == |c.accounts| * INIT_BALANCE + t.forged
  {
    InitInv(c);
    OneLedgerFromStart(c, es, t);
    MoneyRun(c, Init(c), map[], es, t);
    SumMatches(c, t, LedgerAfter(c, Init(c), map[], es, t), c.accounts);
    InitialSum(c.accounts);
    NothingAtStart(InFlight(), c, c.shards);
    assert Init(c).leaders[..c.shards] == Init(c).leaders;
  }
}
