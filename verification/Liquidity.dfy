/** Liquidity beliefs: the two directions of a channel share its capacity; a failure is remembered. */
module Liquidity {
  import opened Base
  import opened Channels
  import opened Routes
  import opened Store
  import opened Search
  import opened Optimality

  // ---------------------------------------------------------------- paired beliefs

  predicate Half(c: ChannelState) {
    c.liquidity == HalfCapacity(c.info)
  }

  /** The beliefs add up to the capacity, and a staleness reset would hit both or change neither. */
  predicate Balanced(c: ChannelState, d: ChannelState) {
    && c.liquidity + d.liquidity == 1000 * c.info.satoshis
    && (c.timestamp == d.timestamp || (Half(c) && Half(d)))
  }

  ghost predicate PairBalanced(channels: map<ChannelId, ChannelState>, scid: Scid) {
    ChannelId(scid, 0) in channels && ChannelId(scid, 1) in channels ==>
      Balanced(channels[ChannelId(scid, 0)], channels[ChannelId(scid, 1)])
  }

  /** Wherever both directions are known, their beliefs are balanced. */
  ghost predicate Paired(channels: map<ChannelId, ChannelState>) {
    forall scid :: PairBalanced(channels, scid)
  }

  /** A direction known alone still has its initial belief. */
  ghost predicate LoneHalf(channels: map<ChannelId, ChannelState>) {
    forall id :: id in channels && (id.direction == 0 || id.direction == 1) && Opposite(id) !in channels ==>
      Half(channels[id])
  }

  /** The belief of the opposite direction, if there is one, is at half. */
  predicate OppositeHalf(channels: map<ChannelId, ChannelState>, id: ChannelId)
    requires id.direction == 0 || id.direction == 1
  {
    Opposite(id) in channels ==> Half(channels[Opposite(id)])
  }

  lemma OthersBalanced(channels: map<ChannelId, ChannelState>, t: map<ChannelId, ChannelState>, scid: Scid)
    requires Paired(channels)
    requires forall id: ChannelId :: id.scid != scid && id in t ==> id in channels && t[id] == channels[id]
    requires PairBalanced(t, scid)
    ensures Paired(t)
  {
    forall x ensures PairBalanced(t, x) {
      if x != scid { assert PairBalanced(channels, x); }
    }
  }

  /** One refreshed channel keeps the beliefs paired exactly when it was known or its opposite is at half. */
  lemma RefreshPairedIff(reg: Registry, net: Network, g: Gossip)
    requires Filed(reg, net.channels) && Conforms(reg, g) && Paired(net.channels)
    ensures Paired(RefreshOne(net, g).channels) <==> IdOf(g) in net.channels || OppositeHalf(net.channels, IdOf(g))
  {
    var id := IdOf(g);
    var t := RefreshOne(net, g).channels;
    assert PairBalanced(net.channels, g.scid);
    assert t[id].info == g;
    if Opposite(id) in t { assert Conforms(reg, t[Opposite(id)].info); }
    if id in net.channels {
      SameIdSameEnds(reg, g, net.channels[id].info);
      OthersBalanced(net.channels, t, g.scid);
    } else if OppositeHalf(net.channels, id) {
      OthersBalanced(net.channels, t, g.scid);
    } else {
      assert !PairBalanced(t, g.scid);
    }
  }

  /** An update keeps the beliefs paired exactly when its amount is within the capacity. */
  lemma UpdatePairedIff(reg: Registry, net: Network, id: ChannelId, amount: nat, now: int)
    requires Filed(reg, net.channels) && Paired(net.channels) && (id.direction == 0 || id.direction == 1)
    requires amount < UINT64 && forall x :: x in net.channels ==> 1000 * net.channels[x].info.satoshis < UINT64
    ensures Paired(Update(net, id, Opposite(id), amount, now).channels) <==>
            (id in net.channels && Opposite(id) in net.channels ==> amount <= 1000 * net.channels[id].info.satoshis)
  {
    var t := Update(net, id, Opposite(id), amount, now).channels;
    if id in net.channels && Opposite(id) in net.channels {
      var capacity := 1000 * net.channels[id].info.satoshis;
      assert Conforms(reg, net.channels[Opposite(id)].info) && Conforms(reg, net.channels[id].info);
      assert t[id].liquidity == amount && t[Opposite(id)].liquidity == (capacity - amount) % UINT64;
      WrappedRest(capacity, amount);
      if amount <= capacity {
        OthersBalanced(net.channels, t, id.scid);
      } else {
        assert !PairBalanced(t, id.scid);
      }
    } else {
      assert ChannelId(id.scid, 0) !in t || ChannelId(id.scid, 1) !in t;
      OthersBalanced(net.channels, t, id.scid);
    }
  }

  lemma WrappedRest(capacity: nat, amount: nat)
    requires capacity < UINT64 && amount < UINT64
    ensures amount + (capacity - amount) % UINT64 == capacity <==> amount <= capacity
  {
    if amount > capacity { assert (capacity - amount) % UINT64 == capacity - amount + UINT64; }
  }

  /** The staleness reset keeps the beliefs paired, whatever the clock shows at each single reset. */
  lemma ResetKeepsPaired(reg: Registry, net: Network, threshold: int, now: int, clock: ChannelId -> int)
    requires Filed(reg, net.channels) && Paired(net.channels)
    ensures Paired(ResetStale(net, threshold, now, clock).channels)
  {
    var t := ResetStale(net, threshold, now, clock).channels;
    forall scid ensures PairBalanced(t, scid) {
      assert PairBalanced(net.channels, scid);
      var a, b := ChannelId(scid, 0), ChannelId(scid, 1);
      if a in t && b in t {
        assert Conforms(reg, net.channels[a].info) && Conforms(reg, net.channels[b].info);
      }
    }
  }

  // ---------------------------------------------------------------- paired beliefs over runs

  /** Channels are removed both directions together, or what stays is at half. */
  ghost predicate RemovesTogether(channels: map<ChannelId, ChannelState>, gone: set<ChannelId>) {
    forall id :: id in channels && id !in gone && (id.direction == 0 || id.direction == 1) && Opposite(id) in gone ==>
      Half(channels[id])
  }

  /** What the caller has to see to: pairs pruned together, updates within capacity and of whole pairs. */
  ghost predicate Safe(reg: Registry, net: Network, op: Op) {
    OpConforms(reg, op) &&
    match op
    case RefreshOp(_) => true
    case DeleteOp(g) => RemovesTogether(net.channels, {IdOf(g)})
    case PruneOp(order) => RemovesTogether(net.channels, set id | id in order)
    case UpdateOp(id, opposite, amount, _) =>
      && (id.direction == 0 || id.direction == 1) && opposite == Opposite(id)
      && (id in net.channels <==> opposite in net.channels)
      && (id in net.channels ==> amount <= 1000 * net.channels[id].info.satoshis < UINT64)
    case ResetOp(_, _, _) => true
  }

  ghost predicate SafeRun(reg: Registry, net: Network, ops: seq<Op>)
    decreases |ops|
  {
    ops == [] || (Safe(reg, net, ops[0]) && SafeRun(reg, Apply(net, ops[0]), ops[1..]))
  }

  lemma {:induction false} RefreshKeepsPaired(reg: Registry, net: Network, gossip: seq<Gossip>)
    requires Agrees(reg, net) && (forall g :: g in gossip ==> Conforms(reg, g))
    requires Paired(net.channels) && LoneHalf(net.channels)
    ensures Paired(Refresh(net, gossip).channels) && LoneHalf(Refresh(net, gossip).channels)
  {
    if gossip != [] {
      var init, g := gossip[..|gossip| - 1], gossip[|gossip| - 1];
      RefreshKeepsPaired(reg, net, init);
      RefreshKeepsIndex(reg, net, init);
      var was := Refresh(net, init);
      RefreshPairedIff(reg, was, g);
      RefreshKeepsLone(reg, was, g);
    }
  }

  lemma RefreshKeepsLone(reg: Registry, net: Network, g: Gossip)
    requires Filed(reg, net.channels) && Conforms(reg, g) && LoneHalf(net.channels)
    ensures LoneHalf(RefreshOne(net, g).channels)
    ensures IdOf(g) !in net.channels ==> OppositeHalf(net.channels, IdOf(g))
  {
    var id := IdOf(g);
    if id in net.channels { SameIdSameEnds(reg, g, net.channels[id].info); }
    assert Opposite(Opposite(id)) == id;
  }

  lemma RemoveKeepsPaired(channels: map<ChannelId, ChannelState>, gone: set<ChannelId>)
    requires Paired(channels) && LoneHalf(channels) && RemovesTogether(channels, gone)
    ensures Paired(channels - gone) && LoneHalf(channels - gone)
  {
    var t := channels - gone;
    forall scid ensures PairBalanced(t, scid) { assert PairBalanced(channels, scid); }
  }

  lemma UpdateKeepsLone(net: Network, id: ChannelId, amount: nat, now: int)
    requires LoneHalf(net.channels) && (id.direction == 0 || id.direction == 1)
    requires id in net.channels <==> Opposite(id) in net.channels
    ensures LoneHalf(Update(net, id, Opposite(id), amount, now).channels)
  {
    assert Opposite(Opposite(id)) == id;
  }

  lemma ResetKeepsLone(net: Network, threshold: int, now: int, clock: ChannelId -> int)
    requires LoneHalf(net.channels)
    ensures LoneHalf(ResetStale(net, threshold, now, clock).channels)
  {
  }

  lemma SafeKeepsPaired(reg: Registry, net: Network, op: Op)
    requires Agrees(reg, net) && Paired(net.channels) && LoneHalf(net.channels) && Safe(reg, net, op)
    ensures Paired(Apply(net, op).channels) && LoneHalf(Apply(net, op).channels)
  {
    match op
    case RefreshOp(gossip) => RefreshKeepsPaired(reg, net, gossip);
    case DeleteOp(g) => RemoveKeepsPaired(net.channels, {IdOf(g)});
    case PruneOp(order) =>
      DeleteAllKeepsIndex(reg, net, order);
      RemoveKeepsPaired(net.channels, set id | id in order);
    case UpdateOp(id, opposite, amount, now) =>
      UpdateWithinCapacity(reg, net, id, amount, now);
      UpdateKeepsLone(net, id, amount, now);
    case ResetOp(threshold, at, clock) =>
      ResetKeepsPaired(reg, net, threshold, at, clock);
      ResetKeepsLone(net, threshold, at, clock);
  }

  lemma UpdateWithinCapacity(reg: Registry, net: Network, id: ChannelId, amount: nat, now: int)
    requires Filed(reg, net.channels) && Paired(net.channels) && (id.direction == 0 || id.direction == 1)
    requires id in net.channels <==> Opposite(id) in net.channels
    requires id in net.channels ==> amount <= 1000 * net.channels[id].info.satoshis < UINT64
    ensures Paired(Update(net, id, Opposite(id), amount, now).channels)
  {
    var t := Update(net, id, Opposite(id), amount, now).channels;
    if id in net.channels {
      assert Conforms(reg, net.channels[Opposite(id)].info) && Conforms(reg, net.channels[id].info);
      WrappedRest(1000 * net.channels[id].info.satoshis, amount);
    }
    OthersBalanced(net.channels, t, id.scid);
  }

  /** Over every safe run the beliefs of the two directions add up to the capacity. */
  lemma {:induction false} RunKeepsPaired(reg: Registry, net: Network, ops: seq<Op>)
    requires Agrees(reg, net) && Paired(net.channels) && LoneHalf(net.channels) && SafeRun(reg, net, ops)
    ensures Paired(Run(net, ops).channels)
    decreases |ops|
  {
    if ops != [] {
      SafeKeepsPaired(reg, net, ops[0]);
      ApplyKeepsIndex(reg, net, ops[0]);
      RunKeepsPaired(reg, Apply(net, ops[0]), ops[1..]);
    }
  }

  // ---------------------------------------------------------------- learning from failure

  /** The belief a failed payment of `m` msat leaves behind: one million msat less, or nothing. */
  function FailureAmount(m: nat): (r: nat)
    ensures m > 0 ==> r < m
  {
    m - Min(m, 1000000)
  }

  /** The operation leaves the belief of channel `id` alone. */
  ghost predicate Spares(net: Network, op: Op, id: ChannelId) {
    id in net.channels && id in Apply(net, op).channels
    && Apply(net, op).channels[id].liquidity == net.channels[id].liquidity
  }

  ghost predicate SparesAll(net: Network, ops: seq<Op>, id: ChannelId)
    decreases |ops|
  {
    ops == [] || (Spares(net, ops[0], id) && SparesAll(Apply(net, ops[0]), ops[1..], id))
  }

  lemma {:induction false} BeliefLasts(net: Network, ops: seq<Op>, id: ChannelId)
    requires id in net.channels && SparesAll(net, ops, id)
    ensures id in Run(net, ops).channels && Run(net, ops).channels[id].liquidity == net.channels[id].liquidity
    decreases |ops|
  {
    if ops != [] { BeliefLasts(Apply(net, ops[0]), ops[1..], id); }
  }

  /** A gossip refresh alone spares every belief. */
  lemma RefreshSpares(net: Network, gossip: seq<Gossip>, id: ChannelId)
    requires id in net.channels
    ensures Spares(net, RefreshOp(gossip), id)
  {
    RefreshKeepsBelief(net, gossip, id);
  }

  /** A channel believed to hold less than the amount is on no returned route. */
  lemma PoorChannelUnused(q: Query, r: Result<seq<RouteHop>, SearchError>, id: ChannelId, i: nat)
    requires Answers(q, r) && r.Ok? && id in q.channels && q.channels[id].liquidity < q.amount
    requires i < |r.value|
    ensures IdOf(r.value[i].channel.info) != id
  {
    SearchSound(q, r);
    var p := ChannelsOf(r.value);
    UsableAt(p, q.amount, i);
    assert q.channels[IdOf(p[i].info)] == p[i];
  }

  /**
   * Once the failure of a payment of `m` msat at channel `id` is applied, no search for `m` msat
   * or more returns a route over it, until its belief is changed again.
   */
  lemma FailureIsRemembered(net: Network, id: ChannelId, m: nat, now: int, ops: seq<Op>,
                            q: Query, r: Result<seq<RouteHop>, SearchError>, i: nat)
    requires id in net.channels && (id.direction == 0 || id.direction == 1) && m > 0
    requires var learned := Update(net, id, Opposite(id), FailureAmount(m), now);
             SparesAll(learned, ops, id) && q.channels == Run(learned, ops).channels
    requires q.amount >= m && Answers(q, r) && r.Ok? && i < |r.value|
    ensures IdOf(r.value[i].channel.info) != id
  {
    var learned := Update(net, id, Opposite(id), FailureAmount(m), now);
    BeliefLasts(learned, ops, id);
    PoorChannelUnused(q, r, id, i);
  }
}
