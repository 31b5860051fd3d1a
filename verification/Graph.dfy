/** The graph object: channel objects updated in place, and the inbound index over them. */
module Graphs {
  import opened Base
  import opened Channels
  import opened Store

  datatype GraphError = NoChannel

  class Graph {
    var channels: map<ChannelId, Channel>
    var inbound: Index
    ghost const reg: Registry

    /** The graph as a value. */
    ghost function Net(): Network
      reads this, channels.Values
    {
      Network(map id | id in channels :: channels[id].View(), inbound)
    }

    /** Every channel is filed under its id, so no object stands under two keys. */
    ghost predicate Keyed()
      reads this
    {
      forall id :: id in channels ==> IdOf(channels[id].info) == id && Conforms(reg, channels[id].info)
    }

    constructor (ghost reg: Registry)
      ensures Keyed() && channels == map[] && inbound == map[] && this.reg == reg
    {
      channels := map[];
      inbound := map[];
      this.reg := reg;
    }

    method AddChannel(c: Channel)
      modifies this`inbound, c`maxHtlc, c`minHtlc
      ensures inbound == InsertIndex(old(inbound), c.info)
      ensures c.View() == FillLimits(old(c.View()))
      ensures c.maxHtlc == (if old(c.maxHtlc) == 0 then c.info.htlcMax else old(c.maxHtlc))
      ensures c.minHtlc == (if old(c.minHtlc) == 0 then c.info.htlcMin else old(c.minHtlc))
    {
      var d, s := c.info.destination, c.info.source;
      if d !in inbound { inbound := inbound[d := map[]]; }
      if s !in inbound[d] { inbound := inbound[d := inbound[d][s := []]]; }
      inbound := inbound[d := inbound[d][s := inbound[d][s] + [c.info.scid]]];
      assert inbound[d] == InsertIndex(old(inbound), c.info)[d];
      if c.maxHtlc == 0 { c.maxHtlc := c.info.htlcMax; }
      if c.minHtlc == 0 { c.minHtlc := c.info.htlcMin; }
    }

    /** Building the index of a graph read from file, the channels taken in any order; from then on it agrees. */
    method Load() returns (ghost order: seq<ChannelId>)
      requires Keyed() && inbound == map[]
      modifies this`inbound, channels.Values
      ensures Keyed() && channels == old(channels)
      ensures Distinct(order) && forall id :: id in order <==> id in channels
      ensures Net() == Network(FillAll(old(Net()).channels), IndexAll(old(Net()).channels, order))
      ensures Agrees(reg, Net())
    {
      var todo := channels.Keys;
      ghost var was := Net().channels;
      order := [];
      while todo != {}
        invariant channels == old(channels) && Loading(was, order, todo)
        decreases |todo|
      {
        var id :| id in todo;
        LoadChannel(id, was, order, todo);
        order := order + [id];
        todo := todo - {id};
      }
      LoadingEnds(was, order);
    }

    lemma LoadingEnds(was: map<ChannelId, ChannelState>, order: seq<ChannelId>)
      requires Loading(was, order, {}) && Filed(reg, was)
      ensures Net() == Network(FillAll(was), IndexAll(was, order)) && Agrees(reg, Net())
    {
      assert Net().channels == FillAll(was);
      LoadBuildsIndex(reg, was, order);
    }

    /** Part of the file is indexed: the channels of `order`, not those of `todo`. */
    ghost predicate Loading(was: map<ChannelId, ChannelState>, order: seq<ChannelId>, todo: set<ChannelId>)
      reads this, channels.Values
    {
      && Keyed() && was.Keys == channels.Keys && todo <= channels.Keys && Distinct(order)
      && (forall id :: id in order <==> id in channels && id !in todo)
      && inbound == IndexAll(was, order)
      && (forall id :: id in channels ==> channels[id].View() == if id in todo then was[id] else FillLimits(was[id]))
    }

    method LoadChannel(id: ChannelId, ghost was: map<ChannelId, ChannelState>,
                       ghost order: seq<ChannelId>, ghost todo: set<ChannelId>)
      requires Loading(was, order, todo) && id in todo
      modifies this`inbound, channels.Values
      ensures channels == old(channels) && Loading(was, order + [id], todo - {id})
    {
      assert (order + [id])[..|order|] == order;
      assert was[id].info == channels[id].info;
      AddChannel(channels[id]);
    }

    method RefreshChannels(gossip: seq<Gossip>)
      requires Keyed() && forall g :: g in gossip ==> Conforms(reg, g)
      modifies this
      ensures Keyed() && Net() == Refresh(old(Net()), gossip)
    {
      ghost var start := Net();
      for i := 0 to |gossip|
        invariant Keyed() && Net() == Refresh(start, gossip[..i])
      {
        assert gossip[..i + 1][..i] == gossip[..i];
        RefreshChannel(gossip[i]);
      }
      assert gossip[..|gossip|] == gossip;
    }

    /** The loop body of `RefreshChannels`. */
    method RefreshChannel(g: Gossip)
      requires Keyed() && Conforms(reg, g)
      modifies this
      ensures Keyed() && Net() == RefreshOne(old(Net()), g)
    {
      hide InsertIndex;
      var id := IdOf(g);
      var c: Channel;
      if id !in channels {
        c := new Channel(g, HalfCapacity(g), 0);
        AddChannel(c);
      } else {
        assert channels[id].View() == Net().channels[id];
        c := new Channel(g, channels[id].liquidity, channels[id].timestamp);
      }
      Put(id, c);
    }

    method Put(id: ChannelId, c: Channel)
      requires Keyed() && IdOf(c.info) == id && Conforms(reg, c.info)
      modifies this`channels
      ensures Keyed() && Net() == Network(old(Net()).channels[id := c.View()], old(inbound))
    {
      channels := channels[id := c];
    }

    method DeleteChannel(c: Channel)
      requires Keyed()
      modifies this`channels, this`inbound
      ensures Keyed() && Net() == Delete(old(Net()), c.info)
      ensures channels == old(channels) - {IdOf(c.info)}
    {
      channels := channels - {IdOf(c.info)};
      RemoveFromIndex(c.info);
    }

    /** The adjacency part of `DeleteChannel`. */
    method RemoveFromIndex(g: Gossip)
      modifies this`inbound
      ensures inbound == RemoveIndex(old(inbound), g)
    {
      var d, s := g.destination, g.source;
      if d in inbound && s in inbound[d] {
        var edge := inbound[d][s];
        for i := 0 to |edge|
          invariant inbound == old(inbound) && g.scid !in edge[..i]
        {
          if edge[i] == g.scid {
            assert i == IndexOf(edge, g.scid);
            inbound := inbound[d := inbound[d][s := SwapRemove(edge, i)]];
            break;
          }
        }
      }
    }

    /** Deletes exactly the channels not updated for longer than the pruning interval, in any order. */
    method PruneChannels(now: nat) returns (ghost order: seq<ChannelId>)
      requires Keyed()
      modifies this
      ensures Keyed() && Net() == DeleteAll(old(Net()), order)
      ensures PruneOrder(old(Net()), order, now)
    {
      ghost var start := Net();
      order := [];
      var todo := channels.Keys;
      while todo != {}
        invariant todo <= channels.Keys && Pruning(start, now, order, todo)
        decreases |todo|
      {
        var id :| id in todo;
        order := PruneChannel(id, now, start, order, todo);
        todo := todo - {id};
      }
    }

    /** The old channels not in `todo` are deleted, in the order `order`. */
    ghost predicate Pruning(start: Network, now: nat, order: seq<ChannelId>, todo: set<ChannelId>)
      reads this, channels.Values
    {
      && Keyed() && Net() == DeleteAll(start, order)
      && (forall id :: id in order <==> id in start.channels && id !in todo && Old(start.channels[id], now))
      && (forall id :: id in channels ==> id in start.channels && channels[id].info == start.channels[id].info)
    }

    /** The loop body of `PruneChannels`. */
    method PruneChannel(id: ChannelId,
                        now: nat, ghost start: Network, ghost order: seq<ChannelId>, ghost todo: set<ChannelId>)
      returns (ghost order': seq<ChannelId>)
      requires todo <= channels.Keys && Pruning(start, now, order, todo) && id in todo
      modifies this
      ensures todo - {id} <= channels.Keys && Pruning(start, now, order', todo - {id})
    {
      order' := order;
      var c := channels[id];
      if c.info.lastUpdate + PRUNING_INTERVAL < now {
        assert (order + [id])[..|order|] == order;
        assert Net().channels[id].info == c.info;
        DeleteChannel(c);
        order' := order + [id];
        assert channels.Keys == old(channels).Keys - {id};
      }
    }

    method UpdateChannel(id: ChannelId, opposite: ChannelId, amount: nat, now: int)
      requires Keyed()
      modifies channels.Values
      ensures Keyed() && Net() == Update(old(Net()), id, opposite, amount, now)
    {
      if id in channels {
        SetBelief(id, amount, now);
      }
      if opposite in channels {
        assert channels[opposite].View() == Net().channels[opposite];
        SetBelief(opposite, (channels[opposite].info.satoshis * 1000 - amount) % UINT64, now);
      }
    }

    method SetBelief(id: ChannelId, liquidity: nat, now: int)
      requires Keyed() && id in channels
      modifies channels[id]
      ensures Net().channels == Believe(old(Net()).channels, id, liquidity, now)
    {
      channels[id].liquidity := liquidity;
      channels[id].timestamp := now;
    }

    method GetChannel(id: ChannelId) returns (r: Result<Channel, GraphError>)
      ensures r == if id in channels then Ok(channels[id]) else Err(NoChannel)
    {
      if id !in channels { return Err(NoChannel); }
      return Ok(channels[id]);
    }

    /** Resets every belief older than the threshold and counts them. `clock(id)` is the time read at a reset. */
    method RefreshLiquidity(threshold: int, now: int, clock: ChannelId -> int) returns (hits: nat)
      requires Keyed()
      modifies channels.Values
      ensures Keyed() && Net() == ResetStale(old(Net()), threshold, now, clock)
      ensures hits == |set id | id in old(Net()).channels && Stale(old(Net()).channels[id], threshold, now)|
    {
      hide Resetting, Stale, Keyed;
      ghost var was := Net();
      hits := 0;
      var todo := channels.Keys;
      ghost var reset: set<ChannelId> := {};
      ResettingStarts(threshold, now, clock);
      while todo != {}
        invariant Keyed() && todo <= channels.Keys && inbound == was.inbound
        invariant hits == |reset| && Resetting(was, threshold, now, clock, todo, reset)
        decreases |todo|
      {
        var id :| id in todo;
        var hit := ResetIfStale(id, threshold, now, clock, was, todo, reset);
        todo := todo - {id};
        if hit {
          hits := hits + 1;
          reset := reset + {id};
        }
      }
      ResettingEnds(was, threshold, now, clock, reset);
    }

    lemma ResettingStarts(threshold: int, now: int, clock: ChannelId -> int)
      ensures Resetting(Net(), threshold, now, clock, channels.Keys, {})
    {
    }

    lemma ResettingEnds(was: Network, threshold: int, now: int, clock: ChannelId -> int, reset: set<ChannelId>)
      requires Resetting(was, threshold, now, clock, {}, reset)
      ensures Net().channels == ResetStale(was, threshold, now, clock).channels
      ensures reset == set id | id in was.channels && Stale(was.channels[id], threshold, now)
    {
    }

    /** The stale channels not in `todo` are reset; they are `reset`. */
    ghost predicate Resetting(was: Network, threshold: int, now: int, clock: ChannelId -> int,
                              todo: set<ChannelId>, reset: set<ChannelId>)
      reads this, channels.Values
    {
      && channels.Keys == was.channels.Keys
      && (forall id :: id in reset <==> id in was.channels && id !in todo && Stale(was.channels[id], threshold, now))
      && (forall id :: id in channels ==>
            channels[id].View() == if id in reset then ResetState(was.channels[id], clock(id)) else was.channels[id])
    }

    /** The loop body of `RefreshLiquidity`. */
    method ResetIfStale(id: ChannelId, threshold: int, now: int, clock: ChannelId -> int,
                        ghost was: Network, ghost todo: set<ChannelId>, ghost reset: set<ChannelId>) returns (hit: bool)
      requires Keyed() && id in todo && todo <= channels.Keys && Resetting(was, threshold, now, clock, todo, reset)
      modifies channels.Values
      ensures id !in reset
      ensures Resetting(was, threshold, now, clock, todo - {id}, if hit then reset + {id} else reset)
    {
      var c := channels[id];
      assert c.View() == was.channels[id];
      hit := c.timestamp + threshold < now;
      if hit { c.ResetLiquidity(clock(id)); }
    }
  }
}
