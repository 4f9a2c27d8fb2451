/** The collection of a round ends: what is sent to a shard is collected, and once everything is there the shard
    can propose the round. */
module ReshardingProgress {
  import opened Placement
  import opened Transfers
  import opened LeaderSpec
  import opened ReshardingSystem
  import opened ReshardingInvariant
  import opened ReshardingSteps
  import opened ReshardingSafety
  import Limits = ReshardingLimits

  // ---------------------------------------------------------------- the flag is exact

  ghost predicate CollectOk(shards: nat, i: int, l: Leader) {
    && (forall j :: j in l.parcels ==> 0 <= j < shards && j != i)
    && (l.collectOver <==> shards > 1 && Others(l.parcels.Keys, i, shards))
  }

  ghost predicate SendersOk(net: seq<Msg>, n: nat) {
    forall k :: 0 <= k < |net| && net[k].Accounts? ==> 0 <= net[k].from < n && net[k].from != net[k].to
  }

  ghost predicate Collects(c: Config, s: Sys) {
    && |s.leaders| == c.shards && SendersOk(s.net, c.shards)
    && forall i :: 0 <= i < c.shards ==> CollectOk(c.shards, i, s.leaders[i])
  }

  lemma ParcelCounted(c: Config, i: int, l: Leader, j: int, p: Parcel)
    requires 0 <= i < c.shards && 0 <= j < c.shards && j != i && CollectOk(c.shards, i, l)
    ensures CollectOk(c.shards, i, HandleParcel(l, j, p, c.shards))
  {
    var keys := l.parcels[j := p].Keys;
    FullButMe(c.shards, i, keys);
    if Others(keys, i, c.shards) {
      OthersCard(c.shards, i, keys);
    }
  }

  lemma OthersCard(n: nat, me: int, keys: set<int>)
    requires 0 <= me < n && Others(keys, me, n)
    ensures |keys| == n - 1
  {
    Limits.FullCard(n, keys + {me});
    assert |keys + {me}| == |keys| + 1;
  }

  lemma NothingCollected(c: Config, i: int, l: Leader)
    requires 0 <= i < c.shards && l.parcels == map[] && !l.collectOver
    ensures CollectOk(c.shards, i, l)
  {
    if c.shards > 1 {
      var j := if i == 0 then 1 else 0;
      assert j !in l.parcels.Keys;
    }
  }

  lemma CollectsInit(c: Config)
    requires c.Valid()
    ensures Collects(c, Init(c))
  {
    forall i | 0 <= i < c.shards ensures CollectOk(c.shards, i, Init(c).leaders[i]) {
      NothingCollected(c, i, NewLeader());
    }
  }

  lemma CollectsReceive(c: Config, l: Leader, m: Msg)
    requires CollectOk(c.shards, m.to, l) && 0 <= m.to < c.shards
    requires m.Accounts? ==> 0 <= m.from < c.shards && m.from != m.to
    ensures CollectOk(c.shards, m.to, Receive(c, l, m))
  {
    if m.Accounts? {
      ParcelCounted(c, m.to, l, m.from, m.parcel);
    }
  }

  lemma SendersMore(net: seq<Msg>, more: seq<Msg>, n: nat)
    requires SendersOk(net, n) && SendersOk(more, n)
    ensures SendersOk(net + more, n)
  {
  }

  lemma SendersLess(net: seq<Msg>, k: nat, n: nat)
    requires k < |net| && SendersOk(net, n)
    ensures SendersOk(Without(net, k), n)
  {
    WithoutMembers(net, k);
  }

  lemma NewSenders(c: Config, s: Sys, e: Event)
    requires |s.leaders| == c.shards && Enabled(c, s, e) && !e.Deliver? && SendersOk(s.net, c.shards)
    ensures SendersOk(Next(c, s, e).net, c.shards)
  {
    var n := |s.leaders|;
    match e
    case PublishRound(delta) =>
      PublishesAre(delta, n);
      SendersMore(s.net, Publishes(delta, n), n);
    case Commit(i) =>
      var l := s.leaders[i];
      RelaysAre(H(c, s, i), l.phase.body, l.sequenceID, n);
      SendersMore(s.net, Relays(H(c, s, i), l.phase.body, l.sequenceID, n), n);
    case Announce(i) =>
      ReadiesAre(i, s.leaders[i].sequenceID, n);
      SendersMore(s.net, Readies(i, s.leaders[i].sequenceID, n), n);
    case Pass(i) =>
      ParcelsAre(s.leaders[i], H(c, s, i), n);
      SendersMore(s.net, Parcels(s.leaders[i], H(c, s, i), n), n);
    case _ =>
  }

  lemma CollectsStep(c: Config, s: Sys, e: Event)
    requires Collects(c, s) && Enabled(c, s, e)
    ensures Collects(c, Next(c, s, e))
  {
    hide CollectOk, SendersOk, FirstInChannel, AllDone, BarrierOpen, Reads;
    if e.Deliver? {
      var m := s.net[e.k];
      SendersLess(s.net, e.k, c.shards);
      assert m.Accounts? ==> 0 <= m.from < c.shards && m.from != m.to by {
        SenderAt(s.net, e.k, c.shards);
      }
      CollectsReceive(c, s.leaders[m.to], m);
    } else {
      NewSenders(c, s, e);
      CollectsLocal(c, s, e);
    }
  }

  lemma SenderAt(net: seq<Msg>, k: nat, n: nat)
    requires k < |net| && SendersOk(net, n)
    ensures net[k].Accounts? ==> 0 <= net[k].from < n && net[k].from != net[k].to
  {
  }

  lemma CollectsLocal(c: Config, s: Sys, e: Event)
    requires Collects(c, s) && Enabled(c, s, e) && !e.Deliver?
    ensures forall i :: 0 <= i < c.shards ==> CollectOk(c.shards, i, Next(c, s, e).leaders[i])
  {
    hide SendersOk, AllDone, BarrierOpen, Reads, Others;
    if e.CommitRound? {
      NothingCollected(c, e.shard, CommitPartition(s.leaders[e.shard], e.shard, c.addr2Shard));
    }
  }

  lemma {:induction false} CollectsRun(c: Config, s: Sys, es: seq<Event>, t: Sys, heard: bool)
    requires Collects(c, s) && Run(c, s, es, t, heard)
    ensures Collects(c, t)
    decreases |es|
  {
    hide Collects, Enabled, Next;
    if es != [] {
      CollectsStep(c, s, es[0]);
      CollectsRun(c, Next(c, s, es[0]), es[1..], t, heard);
    }
  }

  /** In every run, at every leader, collection is over exactly if there are other shards and a parcel of each of
      them has been received since the last round. */
  lemma CollectionIsExact(c: Config, es: seq<Event>, t: Sys, heard: bool, i: int)
    requires c.Valid() && Run(c, Init(c), es, t, heard) && 0 <= i < |t.leaders|
    ensures t.leaders[i].collectOver <==> c.shards > 1 && Others(t.leaders[i].parcels.Keys, i, c.shards)
  {
    CollectsInit(c);
    CollectsRun(c, Init(c), es, t, heard);
  }

  lemma AnyOrder(parcels: map<int, Parcel>) returns (order: seq<int>)
    ensures Reads(order, parcels)
    decreases |parcels|
  {
    if j :| j in parcels {
      assert |parcels - {j}| < |parcels|;
      var rest := AnyOrder(parcels - {j});
      order := rest + [j];
    } else {
      order := [];
    }
  }

  /** So a leader that has handed its accounts over can propose the round exactly from the moment it holds a
      parcel of every other shard, if there are others. */
  lemma ProposesExactly(c: Config, es: seq<Event>, t: Sys, heard: bool, i: int)
    requires c.Valid() && Run(c, Init(c), es, t, heard) && 0 <= i < |t.leaders| && t.leaders[i].phase.Collecting?
    ensures (exists order :: Enabled(c, t, ProposeRound(i, order))) <==> c.shards > 1 && Others(t.leaders[i].parcels.Keys, i, c.shards)
  {
    CollectionIsExact(c, es, t, heard, i);
    hide Others, Reads;
    var order := AnyOrder(t.leaders[i].parcels);
    assert t.leaders[i].collectOver ==> Enabled(c, t, ProposeRound(i, order));
  }

  // ---------------------------------------------------------------- nothing sent is lost

  /** The two messages of a round: `j` announces to `i` that it is ready, or hands it its parcel. */
  predicate Carries(m: Msg, ready: bool, j: int, i: int) {
    (if ready then m.Ready? else m.Accounts?) && m.from == j && m.to == i
  }

  /** Such a message is on its way. */
  ghost predicate InFlight(net: seq<Msg>, ready: bool, j: int, i: int) {
    exists k :: 0 <= k < |net| && Carries(net[k], ready, j, i)
  }

  /** The shard has sent its announcement, or its parcels, in this round. */
  predicate HasSent(epoch: nat, l: Leader, ready: bool) {
    if ready then InRound(l) else l.phase.Collecting? || l.phase.Committing? || l.round == epoch
  }

  /** From whom the shard has received it. */
  function Got(l: Leader, ready: bool): set<int> {
    if ready then l.partitionReady else l.parcels.Keys
  }

  /** Once `j` has sent it, it is under way to `i` or there, until `i` is done. */
  ghost predicate Owed(epoch: nat, ready: bool, li: Leader, lj: Leader, net: seq<Msg>, i: int, j: int) {
    HasSent(epoch, lj, ready) && li.round != epoch ==> j in Got(li, ready) || InFlight(net, ready, j, i)
  }

  ghost predicate OwedAll(s: Sys, ready: bool) {
    forall i, j :: 0 <= i < |s.leaders| && 0 <= j < |s.leaders| && i != j ==>
      Owed(s.epoch, ready, s.leaders[i], s.leaders[j], s.net, i, j)
  }

  lemma InFlightMore(net: seq<Msg>, more: seq<Msg>, ready: bool, j: int, i: int)
    requires InFlight(net, ready, j, i) || InFlight(more, ready, j, i)
    ensures InFlight(net + more, ready, j, i)
  {
    if InFlight(net, ready, j, i) {
      var k :| 0 <= k < |net| && Carries(net[k], ready, j, i);
      assert (net + more)[k] == net[k];
    } else {
      var k :| 0 <= k < |more| && Carries(more[k], ready, j, i);
      assert (net + more)[|net| + k] == more[k];
    }
  }

  lemma InFlightLess(net: seq<Msg>, at: nat, ready: bool, j: int, i: int)
    requires at < |net| && InFlight(net, ready, j, i) && !Carries(net[at], ready, j, i)
    ensures InFlight(Without(net, at), ready, j, i)
  {
    var k :| 0 <= k < |net| && Carries(net[k], ready, j, i);
    assert Without(net, at)[if k < at then k else k - 1] == net[k];
  }

  lemma {:induction false} ParcelsFill(l: Leader, h: Where, n: nat, i: int)
    requires 0 <= i < n && i != h.me
    ensures InFlight(Parcels(l, h, n), false, h.me, i)
    decreases n
  {
    var init := Parcels(l, h, n - 1);
    hide ParcelFor;
    if i == n - 1 {
      assert Parcels(l, h, n)[|init|] == Accounts(h.me, i, ParcelFor(l, h, i));
    } else {
      ParcelsFill(l, h, n - 1, i);
      hide InFlight;
      InFlightMore(init, if n - 1 == h.me then [] else [Accounts(h.me, n - 1, ParcelFor(l, h, n - 1))], false, h.me, i);
    }
  }

  lemma {:induction false} ReadiesFill(me: int, seqId: nat, n: nat, i: int)
    requires 0 <= i < n && i != me
    ensures InFlight(Readies(me, seqId, n), true, me, i)
    decreases n
  {
    var init := Readies(me, seqId, n - 1);
    if i == n - 1 {
      assert Readies(me, seqId, n)[|init|] == Ready(me, i, seqId);
    } else {
      ReadiesFill(me, seqId, n - 1, i);
      hide InFlight;
      InFlightMore(init, if n - 1 == me then [] else [Ready(me, n - 1, seqId)], true, me, i);
    }
  }

  /** The event with which shard `i` sends. */
  predicate Sending(e: Event, ready: bool, i: int) {
    e == if ready then Announce(i) else Pass(i)
  }

  /** What an event leaves of a leader: it loses what it got only by finishing the round. */
  ghost predicate Retains(epoch: nat, ready: bool, l: Leader, l': Leader) {
    l'.round == epoch || (l'.round == l.round && Got(l, ready) <= Got(l', ready))
  }

  lemma KeepsOwed(epoch: nat, ready: bool, li: Leader, lj: Leader, li': Leader, lj': Leader, net: seq<Msg>, net': seq<Msg>, i: int, j: int)
    requires Owed(epoch, ready, li, lj, net, i, j)
    requires Retains(epoch, ready, li, li') && (HasSent(epoch, lj', ready) ==> HasSent(epoch, lj, ready))
    requires InFlight(net, ready, j, i) ==> InFlight(net', ready, j, i) || j in Got(li', ready)
    ensures Owed(epoch, ready, li', lj', net', i, j)
  {
    hide InFlight, HasSent, Got;
  }

  lemma LocalKeeps(c: Config, s: Sys, e: Event, ready: bool, i: int)
    requires Inv(c, s) && Enabled(c, s, e) && !e.PublishRound? && 0 <= i < |s.leaders|
    ensures var l, l' := s.leaders[i], Next(c, s, e).leaders[i];
      Retains(s.epoch, ready, l, l') && (Sending(e, ready, i) || (HasSent(s.epoch, l', ready) ==> HasSent(s.epoch, l, ready)))
  {
    if e == CommitRound(i) {
      RoundEnds(c, s, i);
    }
    hide Inv, FirstInChannel, Reads, BarrierOpen, AllDone;
    if e.Deliver? {
      ReceiveKeeps(c, s.epoch, ready, s.leaders[s.net[e.k].to], s.net[e.k]);
    }
  }

  lemma ReceiveKeeps(c: Config, epoch: nat, ready: bool, l: Leader, m: Msg)
    ensures var l' := Receive(c, l, m);
      Retains(epoch, ready, l, l') && (HasSent(epoch, l', ready) ==> HasSent(epoch, l, ready))
  {
  }

  lemma RoundEnds(c: Config, s: Sys, i: int)
    requires Inv(c, s) && 0 <= i < |s.leaders| && s.leaders[i].phase.Committing?
    ensures CommitPartition(s.leaders[i], i, c.addr2Shard).round == s.epoch
  {
    assert LeaderOk(R(c, s), i, s.leaders[i]);
  }

  /** Messages other than the one delivered stay. */
  lemma NetKeeps(c: Config, s: Sys, e: Event, ready: bool, j: int, i: int)
    requires Enabled(c, s, e) && InFlight(s.net, ready, j, i) && 0 <= i < |s.leaders|
    ensures InFlight(Next(c, s, e).net, ready, j, i) || j in Got(Next(c, s, e).leaders[i], ready)
  {
    hide InFlight, Reads, BarrierOpen, FirstInChannel, AllDone;
    match e
    case InjectTxs(x, txs) => InFlightMore(s.net, [Inject(x, txs, s.epoch)], ready, j, i);
    case PublishRound(delta) => InFlightMore(s.net, Publishes(delta, |s.leaders|), ready, j, i);
    case Deliver(k) =>
      if !Carries(s.net[k], ready, j, i) {
        InFlightLess(s.net, k, ready, j, i);
      }
    case Commit(x) =>
      InFlightMore(s.net, Relays(H(c, s, x), s.leaders[x].phase.body, s.leaders[x].sequenceID, |s.leaders|), ready, j, i);
    case Announce(x) => InFlightMore(s.net, Readies(x, s.leaders[x].sequenceID, |s.leaders|), ready, j, i);
    case Pass(x) => InFlightMore(s.net, Parcels(s.leaders[x], H(c, s, x), |s.leaders|), ready, j, i);
    case _ =>
  }

  /** A new round begins with nobody having sent anything in it. */
  lemma NothingSentYet(c: Config, s: Sys, ready: bool, j: int)
    requires Inv(c, s) && AllDone(s) && 0 <= j < |s.leaders|
    ensures !HasSent(s.epoch + 1, s.leaders[j], ready)
  {
    assert LeaderOk(R(c, s), j, s.leaders[j]);
  }

  lemma SendingOwed(c: Config, s: Sys, e: Event, ready: bool, i: int, j: int)
    requires Enabled(c, s, e) && Sending(e, ready, j) && 0 <= i < |s.leaders| && i != j
    ensures InFlight(Next(c, s, e).net, ready, j, i)
  {
    hide BarrierOpen, InFlight;
    if ready {
      ReadiesFill(j, s.leaders[j].sequenceID, |s.leaders|, i);
      InFlightMore(s.net, Readies(j, s.leaders[j].sequenceID, |s.leaders|), ready, j, i);
    } else {
      ParcelsFill(s.leaders[j], H(c, s, j), |s.leaders|, i);
      InFlightMore(s.net, Parcels(s.leaders[j], H(c, s, j), |s.leaders|), ready, j, i);
    }
  }

  lemma OwedStep(c: Config, s: Sys, e: Event, ready: bool, i: int, j: int)
    requires Inv(c, s) && Enabled(c, s, e) && 0 <= i < |s.leaders| && 0 <= j < |s.leaders| && i != j
    requires Owed(s.epoch, ready, s.leaders[i], s.leaders[j], s.net, i, j)
    ensures var t := Next(c, s, e); Owed(t.epoch, ready, t.leaders[i], t.leaders[j], t.net, i, j)
  {
    hide Inv, InFlight, HasSent, Got;
    if e.PublishRound? {
      assert AllDone(s);
      NothingSentYet(c, s, ready, j);
    } else if Sending(e, ready, j) {
      SendingOwed(c, s, e, ready, i, j);
    } else {
      OwedElse(c, s, e, ready, i, j);
    }
  }

  lemma OwedElse(c: Config, s: Sys, e: Event, ready: bool, i: int, j: int)
    requires Inv(c, s) && Enabled(c, s, e) && 0 <= i < |s.leaders| && 0 <= j < |s.leaders| && i != j
    requires Owed(s.epoch, ready, s.leaders[i], s.leaders[j], s.net, i, j) && !e.PublishRound? && !Sending(e, ready, j)
    ensures var t := Next(c, s, e); Owed(t.epoch, ready, t.leaders[i], t.leaders[j], t.net, i, j)
  {
    var t := Next(c, s, e);
    LocalKeeps(c, s, e, ready, i);
    LocalKeeps(c, s, e, ready, j);
    assert t.epoch == s.epoch;
    hide Inv, InFlight, Next, Enabled, HasSent, Got, Sending;
    if InFlight(s.net, ready, j, i) {
      NetKeeps(c, s, e, ready, j, i);
    }
    KeepsOwed(s.epoch, ready, s.leaders[i], s.leaders[j], t.leaders[i], t.leaders[j], s.net, t.net, i, j);
  }

  lemma {:induction false} OwedRun(c: Config, s: Sys, es: seq<Event>, t: Sys, ready: bool)
    requires Inv(c, s) && OwedAll(s, ready) && Run(c, s, es, t, true)
    ensures OwedAll(t, ready)
    decreases |es|
  {
    hide Inv, Enabled, Next, Owed;
    if es != [] {
      StepInv(c, s, es[0]);
      var s' := Next(c, s, es[0]);
      SameShards(c, s, es[0]);
      forall i, j | 0 <= i < |s'.leaders| && 0 <= j < |s'.leaders| && i != j
        ensures Owed(s'.epoch, ready, s'.leaders[i], s'.leaders[j], s'.net, i, j)
      {
        OwedStep(c, s, es[0], ready, i, j);
      }
      OwedRun(c, s', es[1..], t, ready);
    }
  }

  lemma SameShards(c: Config, s: Sys, e: Event)
    requires Enabled(c, s, e)
    ensures |Next(c, s, e).leaders| == |s.leaders|
  {
  }

  /** In every run, a message of a round that every other shard has sent and of which none is under way any more has
      come from all of them. */
  lemma AllArrived(c: Config, es: seq<Event>, t: Sys, ready: bool, i: int, j: int)
    requires c.Valid() && Run(c, Init(c), es, t, true)
    requires 0 <= i < |t.leaders| && 0 <= j < |t.leaders| && j != i
    requires t.leaders[i].round != t.epoch && HasSent(t.epoch, t.leaders[j], ready)
    requires forall k :: 0 <= k < |t.net| ==> !Carries(t.net[k], ready, j, i)
    ensures j in Got(t.leaders[i], ready)
  {
    InitInv(c);
    assert OwedAll(Init(c), ready);
    OwedRun(c, Init(c), es, t, ready);
    assert Owed(t.epoch, ready, t.leaders[i], t.leaders[j], t.net, i, j);
  }

  lemma NotDone(c: Config, es: seq<Event>, t: Sys, i: int)
    requires c.Valid() && Run(c, Init(c), es, t, true) && 0 <= i < |t.leaders| && InRound(t.leaders[i])
    ensures Inv(c, t) && LeaderOk(R(c, t), i, t.leaders[i]) && t.leaders[i].round != t.epoch
  {
    InitInv(c);
    RunInv(c, Init(c), es, t);
  }

  /** In every run, when every shard has handed its accounts over and no parcel to this one is under way any more,
      this shard can propose the round: its collection always ends. */
  lemma CollectionEnds(c: Config, es: seq<Event>, t: Sys, i: int)
    requires c.Valid() && c.shards > 1 && Run(c, Init(c), es, t, true)
    requires 0 <= i < |t.leaders| && t.leaders[i].phase.Collecting?
    requires forall j :: 0 <= j < |t.leaders| ==> HasSent(t.epoch, t.leaders[j], false)
    requires forall k :: 0 <= k < |t.net| ==> !(t.net[k].Accounts? && t.net[k].to == i)
    ensures exists order :: Enabled(c, t, ProposeRound(i, order))
  {
    NotDone(c, es, t, i);
    forall j | 0 <= j < c.shards && j != i ensures j in t.leaders[i].parcels {
      AllArrived(c, es, t, false, i, j);
    }
    assert Others(t.leaders[i].parcels.Keys, i, c.shards);
    hide Run, Inv, Others, LeaderOk;
    ProposesExactly(c, es, t, true, i);
  }

  /** In every run, when every shard has announced itself and no announcement to this one is under way any more, its
      barrier is open exactly if the last relay it received from each shard it ever heard from was the one sent
      with that shard's latest sequence id. */
  lemma BarrierOpensExactly(c: Config, es: seq<Event>, t: Sys, i: int)
    requires c.Valid() && Run(c, Init(c), es, t, true)
    requires 0 <= i < |t.leaders| && t.leaders[i].phase.Waiting?
    requires forall j :: 0 <= j < |t.leaders| ==> InRound(t.leaders[j])
    requires forall k :: 0 <= k < |t.net| ==> !(t.net[k].Ready? && t.net[k].to == i)
    ensures Enabled(c, t, Pass(i)) <==>
              forall j :: j in t.leaders[i].seqIDMap ==>
                0 <= j < |t.leaders| && t.leaders[i].seqIDMap[j] + 1 == t.leaders[j].sequenceID
  {
    NotDone(c, es, t, i);
    forall j | 0 <= j < c.shards && j != i ensures j in t.leaders[i].partitionReady {
      AllArrived(c, es, t, true, i, j);
    }
    assert AllShards(t.leaders[i].partitionReady, c.shards);
    hide Run, AllShards, LeaderOk, BarrierOpen;
    Limits.BarrierOpensWhen(c, t, i);
  }
}
