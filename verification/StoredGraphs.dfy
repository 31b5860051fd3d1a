/** The queries the store can pose, and the graphs it can hold. */
module StoredGraphs {
  import opened Base
  import opened Channels
  import opened Store
  import opened Search

  function QueryOf(net: Network, src: NodeId, dst: NodeId, amount: nat, exclude: set<NodeId>, maxHops: int): Query {
    Query(net.channels, net.inbound.Keys, src, dst, amount, exclude, maxHops)
  }

  lemma AgreeingIsWellFormed(reg: Registry, net: Network, q: Query)
    requires Agrees(reg, net) && q.channels == net.channels && q.nodes == net.inbound.Keys
    ensures WellFormed(q)
  {
    forall id | id in q.channels ensures q.channels[id].info.destination in q.nodes {
      var g := q.channels[id].info;
      assert Present(net.channels, g.source, g.destination, g.scid);
      assert multiset(Edge(net.inbound, g.destination, g.source))[g.scid] == 1;
    }
  }

  // ---------------------------------------------------------------- graphs read from a file

  /** The graph after a load from a file with these channels, taken in the order `order`. */
  function Loaded(saved: map<ChannelId, ChannelState>, order: seq<ChannelId>): Network
    requires forall id :: id in order ==> id in saved
  {
    Network(FillAll(saved), IndexAll(saved, order))
  }

  /** `q` is what a search asks of the graph just loaded. */
  ghost predicate LoadedAs(q: Query, reg: Registry, order: seq<ChannelId>) {
    && Filed(reg, q.channels) && Distinct(order) && (forall id :: id in order <==> id in q.channels)
    && QueryOf(Loaded(AsSaved(q.channels), order), q.src, q.dst, q.amount, q.exclude, q.maxHops) == q
  }

  /** Some file makes the store hold exactly the graph of `q`. */
  ghost predicate Storable(q: Query) {
    exists reg, order :: LoadedAs(q, reg, order)
  }

  /** The nodes of an index are those that channels lead to. */
  lemma {:induction false} IndexAllNodes(channels: map<ChannelId, ChannelState>, order: seq<ChannelId>, v: NodeId)
    requires forall id :: id in order ==> id in channels
    ensures v in IndexAll(channels, order) <==> exists id :: id in order && channels[id].info.destination == v
  {
    if order != [] {
      var init, last := order[..|order| - 1], order[|order| - 1];
      assert order == init + [last];
      IndexAllNodes(channels, init, v);
    }
  }

  lemma {:induction false} SomeOrder(ids: set<ChannelId>) returns (order: seq<ChannelId>)
    ensures Distinct(order) && forall id :: id in order <==> id in ids
  {
    if ids == {} {
      order := [];
    } else {
      var id :| id in ids;
      var rest := SomeOrder(ids - {id});
      order := rest + [id];
    }
  }

  ghost predicate LeadsTo(channels: map<ChannelId, ChannelState>, v: NodeId) {
    exists id :: id in channels && channels[id].info.destination == v
  }

  /** The channels lead to the nodes of `q` and to no others. */
  ghost predicate Reaches(q: Query) {
    forall v {:trigger LeadsTo(q.channels, v)} {:trigger v in q.nodes} :: v in q.nodes <==> LeadsTo(q.channels, v)
  }

  /**
   * The store holds the graph of `q` after some load exactly if the channels are filed under their
   * ids and agree with the chain, their HTLC limits are those of gossip, and the nodes are the ones
   * channels lead to.
   */
  lemma StorableIff(q: Query)
    ensures Storable(q) <==> (exists reg :: Filed(reg, q.channels)) && GossipLimits(q.channels) && Reaches(q)
  {
    LoadRestoresIff(q.channels);
    var order := SomeOrder(q.channels.Keys);
    if Storable(q) {
      var reg, given :| LoadedAs(q, reg, given);
      LoadedNodes(q, given);
    }
    if reg: Registry :| Filed(reg, q.channels) && GossipLimits(q.channels) && Reaches(q) {
      LoadedNodes(q, order);
      assert LoadedAs(q, reg, order);
    }
  }

  lemma StorableWith(q: Query, reg: Registry)
    requires Filed(reg, q.channels) && GossipLimits(q.channels) && Reaches(q)
    ensures Storable(q)
  {
    StorableIff(q);
  }

  lemma LoadedNodes(q: Query, order: seq<ChannelId>)
    requires forall id :: id in order <==> id in q.channels
    ensures Reaches(q) <==> Loaded(AsSaved(q.channels), order).inbound.Keys == q.nodes
  {
    var inbound := IndexAll(AsSaved(q.channels), order);
    forall v ensures v in inbound <==> LeadsTo(q.channels, v) {
      IndexAllNodes(AsSaved(q.channels), order, v);
      if id :| id in q.channels && q.channels[id].info.destination == v {
        assert id in order && AsSaved(q.channels)[id].info.destination == v;
      }
    }
    if Reaches(q) {
      assert forall v :: v in inbound <==> v in q.nodes;
      assert inbound.Keys == q.nodes;
    }
    if inbound.Keys == q.nodes {
      forall v ensures v in q.nodes <==> LeadsTo(q.channels, v) { assert v in q.nodes <==> v in inbound; }
    }
  }

  /** Such a graph's index agrees with its channels, so the search runs on it. */
  lemma StorableAgrees(q: Query) returns (reg: Registry, net: Network)
    requires Storable(q)
    ensures Agrees(reg, net) && GossipLimits(net.channels)
    ensures QueryOf(net, q.src, q.dst, q.amount, q.exclude, q.maxHops) == q
  {
    StorableIff(q);
    var order;
    reg, order :| LoadedAs(q, reg, order);
    net := Loaded(AsSaved(q.channels), order);
    LoadBuildsIndex(reg, AsSaved(q.channels), order);
  }
}
