/** The search itself: labels in maps, a heap with stale entries left in it, early exit at the source. */
module Pathfinder {
  import opened Base
  import opened Channels
  import opened Routes
  import opened Store
  import opened StoredGraphs
  import opened Graphs
  import opened Search
  import opened Optimality
  import opened PriorityQueues

  /** The program's variables hold the state `s`. */
  ghost predicate Mirrors(s: SearchState, distance: map<NodeId, int>, hop: map<NodeId, RouteHop>, pq: PriorityQueue)
    reads pq
  {
    pq.Valid() && s.distance == distance && s.hop == hop && s.queue == pq.Contents()
  }

  /** `item` is the label of its node in the state `s`. */
  ghost predicate IsLabel(q: Query, s: SearchState, item: PqItem) {
    Labels(q, s) && item.node in s.depth && item == LabelEntry(q, s, item.node).value
  }

  /** What relaxing `c` amounts to in terms of the item being followed up. */
  lemma RelaxInTermsOfItem(q: Query, s: SearchState, item: PqItem, c: ChannelState)
    requires IsLabel(q, s, item) && c.info.destination == item.node && c.info.source !in q.exclude
    ensures item.node in s.distance
    ensures var fee := ComputeFee(c.info, item.amount);
            var v, d := c.info.source, s.distance[item.node] + fee;
            var amount, delay := item.amount + fee, item.delay + c.info.delay;
            Relax(q, s, c) ==
            if CanForward(c, item.amount) && d < DistanceOf(s.distance, v)
            then s.(distance := s.distance[v := d],
                    hop := s.hop[v := RouteHop(c, amount, delay)],
                    depth := s.depth[v := item.hops + 1],
                    queue := s.queue + multiset{Entry(PqItem(v, amount, delay, item.hops + 1), d)})
            else s
  {
    hide CanForward, ComputeFee;
  }

  /** Relaxation of one channel from `v` to the node `u` being expanded. */
  method RelaxChannel(c: Channel, item: PqItem, exclude: set<NodeId>, pq: PriorityQueue,
                      distance: map<NodeId, int>, hop: map<NodeId, RouteHop>, ghost q: Query, ghost s: SearchState)
    returns (distance': map<NodeId, int>, hop': map<NodeId, RouteHop>)
    requires c.info.destination == item.node && c.info.source !in exclude && exclude == q.exclude
    requires Mirrors(s, distance, hop, pq) && IsLabel(q, s, item)
    modifies pq
    ensures Mirrors(Relax(q, s, c.View()), distance', hop', pq)
  {
    hide CanForward, ComputeFee, Relax, Labels, LabelEntry, PriorityQueue.Valid, PriorityQueue.Contents;
    RelaxInTermsOfItem(q, s, item, c.View());
    distance', hop' := distance, hop;
    var amount := item.amount;
    if !CanForward(c.View(), amount) {
      return;
    }
    var v := c.info.source;
    var channelFee := ComputeFee(c.info, amount);
    var newDistance := distance[item.node] + channelFee;
    if newDistance < DistanceOf(distance, v) {
      distance' := distance[v := newDistance];
      hop' := hop[v := RouteHop(c.View(), amount + channelFee, item.delay + c.info.delay)];
      pq.Push(Entry(PqItem(v, amount + channelFee, item.delay + c.info.delay, item.hops + 1), newDistance));
    }
  }

  /** Channels left out of `todo` offer nothing, so they need not be looked at. */
  lemma ShrinkTodo(q: Query, s: SearchState, item: PqItem, todo: set<ChannelId>, rest: set<ChannelId>)
    requires At(q, s, item, todo)
    requires forall id :: id in todo && id !in rest && id in q.channels ==> q.channels[id].info.source in q.exclude
    ensures At(q, s, item, rest)
  {
    forall id | id in q.channels && id !in rest && q.channels[id].info.destination in s.expanded
      ensures RelaxedAt(q, s, id)
    {
      if id in todo { assert q.channels[id].info.source in q.exclude; }
    }
  }

  /** The node of `item` is being expanded, `todo` still to be looked at. */
  ghost predicate At(q: Query, s: SearchState, item: PqItem, todo: set<ChannelId>) {
    Expanding(q, s, item.node, todo) && IsLabel(q, s, item)
  }

  lemma RelaxAt(q: Query, s: SearchState, c: ChannelState, todo: set<ChannelId>, item: PqItem)
    requires IdOf(c.info) in q.channels && q.channels[IdOf(c.info)] == c && c.info.destination == item.node
    requires At(q, s, item, todo)
    ensures var t := Relax(q, s, c);
            At(q, t, item, todo - {IdOf(c.info)}) && t.expanded == s.expanded && t.cut == s.cut
  {
    RelaxInv(q, s, IdOf(c.info), todo);
    if Improves(q, s, c) { BetterLabel(q, s, c, todo); }
  }

  /** Lookup and relaxation of the channel `scid` from `v`; the index agrees, so the lookup succeeds. */
  method RelaxScid(g: Graph, v: NodeId, scid: Scid, item: PqItem, exclude: set<NodeId>, pq: PriorityQueue,
                   distance: map<NodeId, int>, hop: map<NodeId, RouteHop>,
                   ghost q: Query, ghost s: SearchState, ghost todo: set<ChannelId>)
    returns (distance': map<NodeId, int>, hop': map<NodeId, RouteHop>, ghost s': SearchState)
    requires g.Keyed() && q.channels == g.Net().channels && exclude == q.exclude && v !in exclude
    requires Present(q.channels, v, item.node, scid)
    requires Mirrors(s, distance, hop, pq) && At(q, s, item, todo)
    modifies pq
    ensures Mirrors(s', distance', hop', pq)
    ensures At(q, s', item, todo - {ChannelId(scid, GetDirection(v, item.node))})
    ensures s'.expanded == s.expanded && s'.cut == s.cut
  {
    var channelId := ChannelId(scid, GetDirection(v, item.node));
    var c := g.channels[channelId];
    assert c.View() == q.channels[channelId];
    RelaxAt(q, s, c.View(), todo, item);
    s' := Relax(q, s, c.View());
    distance', hop' := RelaxChannel(c, item, exclude, pq, distance, hop, q, s);
  }

  /** All parallel channels from `v` to the node being expanded. */
  method RelaxEdge(g: Graph, v: NodeId, edge: seq<Scid>, item: PqItem, exclude: set<NodeId>, pq: PriorityQueue,
                   distance: map<NodeId, int>, hop: map<NodeId, RouteHop>,
                   ghost q: Query, ghost s: SearchState, ghost todo: set<ChannelId>)
    returns (distance': map<NodeId, int>, hop': map<NodeId, RouteHop>,
             ghost s': SearchState, ghost todo': set<ChannelId>)
    requires g.Keyed() && q.channels == g.Net().channels && exclude == q.exclude && v !in exclude
    requires forall i :: 0 <= i < |edge| ==> Present(q.channels, v, item.node, edge[i])
    requires Mirrors(s, distance, hop, pq) && At(q, s, item, todo)
    modifies pq
    ensures Mirrors(s', distance', hop', pq) && At(q, s', item, todo')
    ensures todo' <= todo && forall i :: 0 <= i < |edge| ==> ChannelId(edge[i], GetDirection(v, item.node)) !in todo'
    ensures s'.expanded == s.expanded && s'.cut == s.cut
  {
    hide At, Mirrors, Present;
    distance', hop', s', todo' := distance, hop, s, todo;
    for i := 0 to |edge|
      invariant Mirrors(s', distance', hop', pq) && At(q, s', item, todo')
      invariant s'.expanded == s.expanded && s'.cut == s.cut && todo' <= todo
      invariant forall k :: 0 <= k < i ==> ChannelId(edge[k], GetDirection(v, item.node)) !in todo'
    {
      distance', hop', s' := RelaxScid(g, v, edge[i], item, exclude, pq, distance', hop', q, s', todo');
      todo' := todo' - {ChannelId(edge[i], GetDirection(v, item.node))};
    }
  }

  /** All channels into the node of `item`, its neighbours taken in any order. */
  method ExpandNode(g: Graph, item: PqItem, exclude: set<NodeId>, pq: PriorityQueue,
                    distance: map<NodeId, int>, hop: map<NodeId, RouteHop>, ghost q: Query, ghost s: SearchState)
    returns (distance': map<NodeId, int>, hop': map<NodeId, RouteHop>, ghost s': SearchState)
    requires g.Keyed() && Agrees(g.reg, g.Net()) && exclude == q.exclude
    requires q.channels == g.Net().channels && item.node in g.inbound
    requires Mirrors(s, distance, hop, pq) && At(q, s, item, Into(q, item.node))
    modifies pq
    ensures Mirrors(s', distance', hop', pq) && At(q, s', item, {})
    ensures s'.expanded == s.expanded && s'.cut == s.cut
  {
    hide At, Mirrors, Present, Agrees;
    distance', hop', s' := distance, hop, s;
    var u := item.node;
    ghost var todo := Into(q, u);
    ghost var net := g.Net();
    InboundCovers(g.reg, net, u);
    var neighbours := g.inbound[u].Keys;
    while exists v :: v in neighbours
      invariant neighbours <= g.inbound[u].Keys
      invariant Mirrors(s', distance', hop', pq) && At(q, s', item, todo)
      invariant s'.expanded == s.expanded && s'.cut == s.cut
      invariant todo <= Into(q, u) && forall id :: id in todo ==> q.channels[id].info.source in neighbours
      decreases |neighbours|
    {
      var v :| v in neighbours;
      neighbours := neighbours - {v};
      if v in exclude {
        ghost var rest := set id | id in todo && q.channels[id].info.source != v;
        ShrinkTodo(q, s', item, todo, rest);
        todo := rest;
        continue;
      }
      var edge := g.inbound[u][v];
      assert edge == Edge(net.inbound, u, v);
      EdgeCovers(g.reg, net, v, u);
      distance', hop', s', todo := RelaxEdge(g, v, edge, item, exclude, pq, distance', hop', q, s', todo);
    }
    assert todo == {};
  }

  /** The edge from `v` to `u` lists channels that are present, and all of them. */
  lemma EdgeCovers(reg: Registry, net: Network, v: NodeId, u: NodeId)
    requires Agrees(reg, net)
    ensures var edge := Edge(net.inbound, u, v);
            && (forall i :: 0 <= i < |edge| ==> Present(net.channels, v, u, edge[i]))
            && (forall id :: && id in net.channels && net.channels[id].info.source == v
                             && net.channels[id].info.destination == u
                  ==> exists i :: 0 <= i < |edge| && id == ChannelId(edge[i], GetDirection(v, u)))
  {
    var edge := Edge(net.inbound, u, v);
    forall i | 0 <= i < |edge| ensures Present(net.channels, v, u, edge[i]) {
      assert multiset(edge)[edge[i]] > 0;
    }
    forall id | id in net.channels && net.channels[id].info.source == v && net.channels[id].info.destination == u
      ensures exists i :: 0 <= i < |edge| && id == ChannelId(edge[i], GetDirection(v, u))
    {
      assert Present(net.channels, v, u, id.scid);
      assert id.scid in multiset(edge);
      var i :| 0 <= i < |edge| && edge[i] == id.scid;
    }
  }

  /** Every source of a channel into `u` is listed among its neighbours. */
  lemma InboundCovers(reg: Registry, net: Network, u: NodeId)
    requires Agrees(reg, net) && u in net.inbound
    ensures forall id :: id in net.channels && net.channels[id].info.destination == u ==>
              net.channels[id].info.source in net.inbound[u]
  {
    forall id | id in net.channels && net.channels[id].info.destination == u
      ensures net.channels[id].info.source in net.inbound[u]
    {
      EdgeCovers(reg, net, net.channels[id].info.source, u);
    }
  }

  /**
   * The search. Its answer is one the final labels explain, whatever the order of map iteration
   * and however the heap breaks ties; "channel not found" cannot occur.
   */
  method Dijkstra(g: Graph, src: NodeId, dst: NodeId, amount: nat, exclude: set<NodeId>, maxHops: int)
    returns (r: Result<seq<RouteHop>, SearchError>)
    requires g.Keyed() && Agrees(g.reg, g.Net())
    ensures Answers(QueryOf(g.Net(), src, dst, amount, exclude, maxHops), r)
  {
    hide Mirrors, Inv, Labels, Agrees, Explains, Answers, Outcome;
    hide PriorityQueue.Valid, PriorityQueue.Contents, Graph.Keyed;
    ghost var q := QueryOf(g.Net(), src, dst, amount, exclude, maxHops);
    MissingNode(q);
    if dst !in g.inbound { return Err(NoSuchNode); }
    if src !in g.inbound { return Err(NoSuchNode); }

    var distance := map u | u in g.inbound.Keys :: if u == dst then 0 else MAX_DISTANCE;
    var hop: map<NodeId, RouteHop> := map[];
    var pq := new PriorityQueue(Entry(PqItem(dst, amount, 0, 0), 0));
    ghost var s := Start(q);
    StartMirrors(g.reg, g.Net(), q, distance, hop, pq);
    var reached := false;
    while !reached && pq.Len() > 0
      invariant fresh(pq) && Mirrors(s, distance, hop, pq)
      invariant if reached then Explains(q, s) else Inv(q, s, {})
      decreases !reached, q.nodes - s.expanded - s.cut, pq.Len()
    {
      reached, distance, hop, s := Step(g, src, exclude, maxHops, pq, distance, hop, q, s);
    }
    if !reached { EmptyStops(q, s, distance, hop, pq); }
    OutcomeOf(q, s, distance, hop, pq);
    if distance[src] == MAX_DISTANCE { return Err(NoRoute); }
    var hops := Rebuild(src, dst, hop, q, s);
    return Ok(hops);
  }

  /** The main loop's body: one entry taken from the queue. */
  method Step(g: Graph, src: NodeId, exclude: set<NodeId>, maxHops: int, pq: PriorityQueue,
              distance: map<NodeId, int>, hop: map<NodeId, RouteHop>, ghost q: Query, ghost s: SearchState)
    returns (reached: bool, distance': map<NodeId, int>, hop': map<NodeId, RouteHop>, ghost s': SearchState)
    requires g.Keyed() && Agrees(g.reg, g.Net())
    requires q.channels == g.Net().channels && q.nodes == g.inbound.Keys
    requires q.src == src && src in q.nodes && q.exclude == exclude && q.maxHops == maxHops
    requires Mirrors(s, distance, hop, pq) && Inv(q, s, {}) && pq.Len() > 0
    modifies pq
    ensures Mirrors(s', distance', hop', pq)
    ensures if reached then Explains(q, s') else Inv(q, s', {})
    ensures !reached ==>
              || q.nodes - s'.expanded - s'.cut < q.nodes - s.expanded - s.cut
              || (s'.expanded == s.expanded && s'.cut == s.cut && pq.Len() < old(pq.Len()))
  {
    hide Inv, Labels, Agrees, Explains, PriorityQueue.Valid, PriorityQueue.Contents;
    reached, distance', hop' := false, distance, hop;
    var e := Take(pq, q, s, distance, hop);
    var u := e.value.node;
    s' := Without(s, e);
    if e.priority > DistanceOf(distance, u) {
      SkipInv(q, s, e);
      return;
    }
    if u == src {
      StopsAtSource(q, s, e);
      reached := true;
      return;
    }
    assert u in q.nodes - s.expanded - s.cut;
    if e.value.hops >= maxHops {
      DropInv(q, s, e);
      s' := Drop(s, e);
      return;
    }
    ExpandAt(q, s, e);
    s' := Expand(s, e);
    distance', hop', s' := ExpandNode(g, e.value, exclude, pq, distance, hop, q, s');
    ExpandedDone(q, s', e.value);
  }

  lemma ExpandedDone(q: Query, s: SearchState, item: PqItem)
    requires At(q, s, item, {})
    ensures Inv(q, s, {})
  {
  }

  lemma MissingNode(q: Query)
    ensures q.src !in q.nodes || q.dst !in q.nodes ==> Answers(q, Err(NoSuchNode))
  {
  }

  lemma StartMirrors(reg: Registry, net: Network, q: Query, distance: map<NodeId, int>, hop: map<NodeId, RouteHop>,
                     pq: PriorityQueue)
    requires Agrees(reg, net) && q.channels == net.channels && q.nodes == net.inbound.Keys
    requires q.src in q.nodes && q.dst in q.nodes && pq.Valid()
    requires distance == (map u | u in q.nodes :: if u == q.dst then 0 else MAX_DISTANCE) && hop == map[]
    requires pq.Contents() == multiset{Entry(PqItem(q.dst, q.amount, 0, 0), 0)}
    ensures Mirrors(Start(q), distance, hop, pq) && Inv(q, Start(q), {})
  {
    AgreeingIsWellFormed(reg, net, q);
    StartInv(q);
  }

  lemma ExpandAt(q: Query, s: SearchState, e: Entry)
    requires Inv(q, s, {}) && Live(s, e) && e.value.node != q.src && e.value.hops < q.maxHops
    requires IsLabel(q, s, e.value)
    ensures At(q, Expand(s, e), e.value, Into(q, e.value.node))
  {
    ExpandInv(q, s, e);
  }

  lemma EmptyStops(q: Query, s: SearchState, distance: map<NodeId, int>, hop: map<NodeId, RouteHop>, pq: PriorityQueue)
    requires Inv(q, s, {}) && Mirrors(s, distance, hop, pq) && q.src in q.nodes && pq.Len() == 0
    ensures Explains(q, s)
  {
    StopsWhenEmpty(q, s);
  }

  /** What the final variables say about the answer. */
  lemma OutcomeOf(q: Query, s: SearchState, distance: map<NodeId, int>, hop: map<NodeId, RouteHop>, pq: PriorityQueue)
    requires Explains(q, s) && Mirrors(s, distance, hop, pq)
    ensures q.src in distance && hop == s.hop
    ensures distance[q.src] == MAX_DISTANCE ==> Answers(q, Err(NoRoute))
    ensures distance[q.src] != MAX_DISTANCE ==>
              q.src in s.depth && Answers(q, Ok(SearchHops(Path(q, s, q.src), q.amount)))
  {
    assert Answers(q, Outcome(q, s));
  }

  /** Taking an entry out of the queue. */
  method Take(pq: PriorityQueue, ghost q: Query, ghost s: SearchState,
              ghost distance: map<NodeId, int>, ghost hop: map<NodeId, RouteHop>)
    returns (e: Entry)
    requires Mirrors(s, distance, hop, pq) && Inv(q, s, {}) && pq.Len() > 0
    modifies pq
    ensures Mirrors(Without(s, e), distance, hop, pq) && pq.Len() == old(pq.Len()) - 1
    ensures e in s.queue && e.value.node in q.nodes
    ensures e.priority <= DistanceOf(s.distance, e.value.node) ==> Live(s, e) && IsLabel(q, s, e.value)
    ensures e.priority <= DistanceOf(s.distance, e.value.node) ==> e.value.node !in s.expanded + s.cut
  {
    e := pq.Pop();
    LiveEntry(q, s, e);
  }

  /** Following the hop map from source to destination; the hop counts of the labels fall, so it ends. */
  method Rebuild(src: NodeId, dst: NodeId, hop: map<NodeId, RouteHop>, ghost q: Query, ghost s: SearchState)
    returns (hops: seq<RouteHop>)
    requires Explains(q, s) && hop == s.hop && dst == q.dst && src == q.src && src in s.depth
    ensures hops == SearchHops(Path(q, s, src), q.amount)
  {
    hops := [];
    var u := src;
    while u != dst
      invariant u in s.depth
      invariant hops + SearchHops(Path(q, s, u), q.amount) == SearchHops(Path(q, s, src), q.amount)
      decreases s.depth[u]
    {
      HopIsHead(q, s, u);
      hops := hops + [hop[u]];
      u := hop[u].channel.info.destination;
    }
  }

  lemma HopIsHead(q: Query, s: SearchState, u: NodeId)
    requires Labels(q, s) && Tree(q, s) && u in s.depth && u != q.dst
    ensures var v := s.hop[u].channel.info.destination;
            && v in s.depth && s.depth[v] < s.depth[u]
            && SearchHops(Path(q, s, u), q.amount) == [s.hop[u]] + SearchHops(Path(q, s, v), q.amount)
  {
    hide ComputeFee, CanForward, IdOf, IsRoute, Usable, Entering, EnteringDelay;
    assert TreeEdge(q, s, u);
    PathIsRoute(q, s, u);
    var p := Path(q, s, u);
    assert p[1..] == Path(q, s, p[0].info.destination);
  }
}
