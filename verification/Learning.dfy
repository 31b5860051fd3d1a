/** From the notification of a failed payment to the searches that avoid the channel. */
module Learning {
  import opened Base
  import opened Channels
  import opened Routes
  import Store
  import opened Liquidity
  import opened Search
  import opened Optimality
  import Payments

  /**
   * The operation leaves a belief about channel `id` alone that was learned at time `since`: gossip
   * is no news of liquidity, and a staleness reset is none as long as the belief is young enough.
   */
  predicate Quiet(op: Store.Op, id: ChannelId, since: int) {
    match op
    case RefreshOp(_) => true
    case DeleteOp(g) => IdOf(g) != id
    case PruneOp(order) => id !in order
    case UpdateOp(x, opposite, _, _) => x != id && opposite != id
    case ResetOp(threshold, at, _) => at - since <= threshold
  }

  /** The belief and its time are the same in both states. */
  predicate SameBelief(net: Store.Network, after: Store.Network, id: ChannelId) {
    && id in net.channels && id in after.channels
    && after.channels[id].liquidity == net.channels[id].liquidity
    && after.channels[id].timestamp == net.channels[id].timestamp
  }

  lemma QuietKeepsBelief(reg: Store.Registry, net: Store.Network, op: Store.Op, id: ChannelId)
    requires Store.Agrees(reg, net) && id in net.channels && Quiet(op, id, net.channels[id].timestamp)
    ensures SameBelief(net, Store.Apply(net, op), id) && Spares(net, op, id)
  {
    match op
    case RefreshOp(gossip) =>
      Store.RefreshKeepsBelief(net, gossip, id);
      RefreshSpares(net, gossip, id);
    case PruneOp(order) => Store.DeleteAllKeepsIndex(reg, net, order);
    case ResetOp(threshold, at, clock) => Store.ResetByAge(net, threshold, at, clock, id);
    case _ =>
  }

  ghost predicate QuietRun(reg: Store.Registry, ops: seq<Store.Op>, id: ChannelId, since: int) {
    forall op :: op in ops ==> Quiet(op, id, since) && Store.OpConforms(reg, op)
  }

  lemma {:induction false} QuietRunSpares(reg: Store.Registry, net: Store.Network, ops: seq<Store.Op>, id: ChannelId)
    requires Store.Agrees(reg, net) && id in net.channels && QuietRun(reg, ops, id, net.channels[id].timestamp)
    ensures SparesAll(net, ops, id)
    decreases |ops|
  {
    if ops != [] {
      hide Quiet, Store.Apply, Store.Agrees, Store.OpConforms, Spares;
      QuietKeepsBelief(reg, net, ops[0], id);
      Store.ApplyKeepsIndex(reg, net, ops[0]);
      QuietRunSpares(reg, Store.Apply(net, ops[0]), ops[1..], id);
    }
  }

  /** The graph after `n` turns of the update loop, other operations following each of them. */
  function Drained(net: Store.Network, updates: seq<Payments.LiquidityUpdate>, between: nat -> seq<Store.Op>,
                   clock: nat -> int, n: nat): Store.Network
    requires n <= |updates|
  {
    if n == 0 then net
    else
      var was := Drained(net, updates, between, clock, n - 1);
      Store.Run(Payments.Turn(was, updates[n - 1], clock(n - 1)), between(n - 1))
  }

  lemma TurnKeepsIndex(reg: Store.Registry, net: Store.Network, u: Payments.LiquidityUpdate, now: int)
    requires Store.Agrees(reg, net)
    ensures Store.Agrees(reg, Payments.Turn(net, u, now))
  {
    var id, opposite := ChannelId(u.scid, u.direction), ChannelId(u.scid, Payments.Flip(u.direction));
    Store.ApplyKeepsIndex(reg, net, Store.UpdateOp(id, opposite, u.amount, now));
  }

  lemma {:induction false} DrainedAgrees(reg: Store.Registry, net: Store.Network,
                                         updates: seq<Payments.LiquidityUpdate>,
                                         between: nat -> seq<Store.Op>, clock: nat -> int, n: nat)
    requires Store.Agrees(reg, net) && n <= |updates|
    requires forall k: nat, op :: op in between(k) ==> Store.OpConforms(reg, op)
    ensures Store.Agrees(reg, Drained(net, updates, between, clock, n))
  {
    if n > 0 {
      hide Store.Agrees, Store.OpConforms;
      DrainedAgrees(reg, net, updates, between, clock, n - 1);
      var was := Drained(net, updates, between, clock, n - 1);
      TurnKeepsIndex(reg, was, updates[n - 1], clock(n - 1));
      Store.RunKeepsIndex(reg, Payments.Turn(was, updates[n - 1], clock(n - 1)), between(n - 1));
    }
  }

  /**
   * The update queued for a failure, once applied: the channel is believed to hold a million msat less
   * than failed to pass, or nothing, as of now, and the other direction the rest of the capacity.
   */
  lemma TurnLearns(net: Store.Network, f: Payments.FailureData, now: int)
    requires f.direction == 0 || f.direction == 1
    ensures var id, c := ChannelId(f.scid, f.direction), Payments.Turn(net, Payments.UpdateOf(f), now).channels;
            var learned := if f.msat <= 1000000 then 0 else f.msat - 1000000;
            && (id in net.channels ==> id in c && c[id].liquidity == learned && c[id].timestamp == now)
            && (Opposite(id) in net.channels ==>
                  && Opposite(id) in c && c[Opposite(id)].timestamp == now
                  && c[Opposite(id)].liquidity == (1000 * net.channels[Opposite(id)].info.satoshis - learned) % UINT64)
  {
    TurnIsUpdate(net, f, now);
    var id := ChannelId(f.scid, f.direction);
    if id in net.channels { Store.UpdateSets(net, id, Opposite(id), FailureAmount(f.msat), now, id); }
    if Opposite(id) in net.channels {
      Store.UpdateSets(net, id, Opposite(id), FailureAmount(f.msat), now, Opposite(id));
    }
  }

  lemma TurnIsUpdate(net: Store.Network, f: Payments.FailureData, now: int)
    requires f.direction == 0 || f.direction == 1
    ensures var id := ChannelId(f.scid, f.direction);
            Payments.Turn(net, Payments.UpdateOf(f), now)
            == Store.Update(net, id, Opposite(id), FailureAmount(f.msat), now)
  {
    Payments.FlipIsOpposite(f.scid, f.direction);
  }

  /**
   * The first failure notification of a payment of ours keeps the channel that failed out of every
   * answer for as much or more: once the updates queued before it and its own are taken in turn,
   * whatever else happens to the graph meanwhile, and until the belief about the channel is updated
   * again, goes stale and is reset, or is lost with the channel.
   */
  lemma FailureReachesSearch(saveStats: bool, events: seq<Payments.Event>, f: Payments.FailureData,
                             reg: Store.Registry, net: Store.Network, between: nat -> seq<Store.Op>, clock: nat -> int,
                             ops: seq<Store.Op>, q: Query, r: Result<seq<RouteHop>, SearchError>, i: nat)
    requires Payments.Fresh(events) && Payments.Kept(saveStats, events, f.hash) && Payments.Awaited(events, f.hash)
    requires (f.direction == 0 || f.direction == 1) && f.msat > 0
    requires Store.Agrees(reg, net) && forall k: nat, op :: op in between(k) ==> Store.OpConforms(reg, op)
    requires var queued := Payments.Run(saveStats, events).updates;
             var id := ChannelId(f.scid, f.direction);
             var before := Drained(net, queued, between, clock, |queued|);
             && id in before.channels && QuietRun(reg, ops, id, clock(|queued|))
             && q.channels == Store.Run(Payments.Turn(before, Payments.UpdateOf(f), clock(|queued|)), ops).channels
    requires q.amount >= f.msat && Answers(q, r) && r.Ok? && i < |r.value|
    ensures Payments.Run(saveStats, events + [Payments.Failed(f)]).updates
         == Payments.Run(saveStats, events).updates + [Payments.UpdateOf(f)]
    ensures IdOf(r.value[i].channel.info) != ChannelId(f.scid, f.direction)
  {
    hide Store.Agrees, Store.OpConforms, Payments.Run, Payments.Fresh, Payments.Kept, Payments.Awaited;
    hide Answers, Payments.Turn, Drained, QuietRun;
    Payments.FirstNotificationIsTaken(saveStats, events, f);
    var queued := Payments.Run(saveStats, events).updates;
    var id, now := ChannelId(f.scid, f.direction), clock(|queued|);
    var before := Drained(net, queued, between, clock, |queued|);
    DrainedAgrees(reg, net, queued, between, clock, |queued|);
    TurnKeepsIndex(reg, before, Payments.UpdateOf(f), now);
    TurnIsUpdate(before, f, now);
    TurnLearns(before, f, now);
    QuietRunSpares(reg, Store.Update(before, id, Opposite(id), FailureAmount(f.msat), now), ops, id);
    FailureIsRemembered(before, id, f.msat, now, ops, q, r, i);
  }
}
