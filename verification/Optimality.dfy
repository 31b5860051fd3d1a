/**
 * What the final labels of the search prove: the route read off them is sound, and no usable
 * route is cheaper unless the hop limit or a lower HTLC limit stands in the way.
 */
module Optimality {
  import opened Base
  import opened Channels
  import opened Fees
  import opened Routes
  import opened Search

  datatype SearchError = NoSuchNode | NoRoute

  // ---------------------------------------------------------------- final labels

  /** Labels the search may stop with: nodes not followed up are no nearer than the source. */
  ghost predicate Explains(q: Query, s: SearchState) {
    && WellFormed(q) && q.src in q.nodes
    && Labels(q, s) && Tree(q, s) && Progress(q, s) && Relaxed(q, s, {})
    && (forall v :: v in s.depth && !Settled(s, v) && v != q.src ==> s.distance[v] >= s.distance[q.src])
  }

  lemma LabelIsQueued(q: Query, s: SearchState, v: NodeId)
    requires Labels(q, s) && Queued(q, s) && v in s.depth && !Settled(s, v)
    ensures LabelEntry(q, s, v) in s.queue
  {
  }

  lemma StopsWhenEmpty(q: Query, s: SearchState)
    requires Inv(q, s, {}) && q.src in q.nodes && s.queue == multiset{}
    ensures Explains(q, s)
  {
    forall v | v in s.depth && !Settled(s, v) ensures false {
      LabelIsQueued(q, s, v);
    }
  }

  lemma StopsAtSource(q: Query, s: SearchState, e: Entry)
    requires Inv(q, s, {}) && q.src in q.nodes && Live(s, e) && e.value.node == q.src
    ensures Explains(q, Without(s, e))
  {
    KeepTree(q, s, Without(s, e));
    KeepRelaxed(q, s, Without(s, e), {});
    forall v | v in s.depth && !Settled(s, v) ensures s.distance[v] >= s.distance[q.src] {
      LabelIsQueued(q, s, v);
    }
  }

  /** The channels from `v` along the label tree. */
  ghost function Path(q: Query, s: SearchState, v: NodeId): seq<ChannelState>
    requires Labels(q, s) && Tree(q, s) && v in s.depth
    decreases s.depth[v]
  {
    if v == q.dst then []
    else
      assert TreeEdge(q, s, v);
      [s.hop[v].channel] + Path(q, s, s.hop[v].channel.info.destination)
  }

  /** The outcome the final labels stand for. */
  ghost function Outcome(q: Query, s: SearchState): Result<seq<RouteHop>, SearchError>
    requires Explains(q, s)
  {
    if s.distance[q.src] == MAX_DISTANCE then Err(NoRoute)
    else Ok(SearchHops(Path(q, s, q.src), q.amount))
  }

  /** `r` is an answer to `q` that some final labels explain; whatever the search returns is one. */
  ghost predicate Answers(q: Query, r: Result<seq<RouteHop>, SearchError>) {
    if q.src in q.nodes && q.dst in q.nodes
    then exists s :: Explains(q, s) && r == Outcome(q, s)
    else r == Err(NoSuchNode)
  }

  // ---------------------------------------------------------------- soundness

  /** A usable route of the graph from `src` to `dst` that starts no channel at an excluded node. */
  ghost predicate IsRoute(q: Query, p: seq<ChannelState>, src: NodeId, dst: NodeId) {
    && Connects(p, src, dst)
    && Usable(p, q.amount)
    && forall i {:trigger p[i]} :: 0 <= i < |p| ==>
         && IdOf(p[i].info) in q.channels && q.channels[IdOf(p[i].info)] == p[i]
         && p[i].info.source !in q.exclude
  }

  lemma {:induction false} PathIsRoute(q: Query, s: SearchState, v: NodeId)
    requires Labels(q, s) && Tree(q, s) && v in s.depth
    ensures var p := Path(q, s, v);
            && IsRoute(q, p, v, q.dst)
            && |p| == s.depth[v]
            && Entering(p, q.amount) == q.amount + s.distance[v]
            && EnteringDelay(p, 0) == DelayTo(q, s, v)
    decreases s.depth[v]
  {
    if v != q.dst {
      assert TreeEdge(q, s, v);
      var c := s.hop[v].channel;
      PathIsRoute(q, s, c.info.destination);
      IsRouteCons(q, c, Path(q, s, c.info.destination));
    }
  }

  lemma IsRouteCons(q: Query, c: ChannelState, p: seq<ChannelState>)
    requires IsRoute(q, p, c.info.destination, q.dst)
    requires IdOf(c.info) in q.channels && q.channels[IdOf(c.info)] == c && c.info.source !in q.exclude
    requires CanForward(c, Entering(p, q.amount))
    ensures IsRoute(q, [c] + p, c.info.source, q.dst)
    ensures Entering([c] + p, q.amount) == Entering(p, q.amount) + ComputeFee(c.info, Entering(p, q.amount))
    ensures EnteringDelay([c] + p, 0) == EnteringDelay(p, 0) + c.info.delay
  {
    assert ([c] + p)[1..] == p;
  }

  /** Along the tree the hop counts fall by one, and every node after the first is expanded. */
  lemma {:induction false} PathDepths(q: Query, s: SearchState, v: NodeId)
    requires Labels(q, s) && Tree(q, s) && v in s.depth
    ensures var p := Path(q, s, v);
            && |p| == s.depth[v]
            && (forall i {:trigger p[i]} :: 0 <= i < |p| ==>
                  && p[i].info.source in s.depth && s.depth[p[i].info.source] == s.depth[v] - i
                  && (i > 0 ==> p[i].info.source in s.expanded)
                  && p[i].info.destination in s.expanded)
    decreases s.depth[v]
  {
    if v != q.dst {
      assert TreeEdge(q, s, v);
      var u := s.hop[v].channel.info.destination;
      PathDepths(q, s, u);
      PathIsRoute(q, s, u);
      var p, t := Path(q, s, v), Path(q, s, u);
      forall i | 0 <= i < |p|
        ensures && p[i].info.source in s.depth && s.depth[p[i].info.source] == s.depth[v] - i
                && (i > 0 ==> p[i].info.source in s.expanded)
                && p[i].info.destination in s.expanded
      {
        if i > 0 { assert p[i] == t[i - 1]; }
        if i == 1 { assert t[0].info.source == u; }
      }
    }
  }

  lemma PathIsSimple(q: Query, s: SearchState, v: NodeId)
    requires Labels(q, s) && Tree(q, s) && v in s.depth
    ensures SimplePath(Path(q, s, v), v, q.dst)
  {
    PathIsRoute(q, s, v);
    PathDepths(q, s, v);
    var p := Path(q, s, v);
    forall i, j | 0 <= i < j < |p| ensures Sources(p)[i] != Sources(p)[j] {
      assert s.depth[p[i].info.source] != s.depth[p[j].info.source];
    }
    forall i | 0 <= i < |p| ensures Sources(p)[i] != q.dst {
      assert s.depth[p[i].info.source] > 0;
    }
  }

  lemma OutcomeChannels(q: Query, s: SearchState)
    requires Explains(q, s) && s.distance[q.src] < MAX_DISTANCE
    ensures ChannelsOf(SearchHops(Path(q, s, q.src), q.amount)) == Path(q, s, q.src)
  {
    var p := Path(q, s, q.src);
    forall i | 0 <= i < |p| ensures SearchHops(p, q.amount)[i].channel == p[i] {
      SearchHopsAt(p, q.amount, i);
    }
  }

  /**
   * Whatever the graph, the exclusions, the hop limit and the order of choices: a returned hop
   * list is a simple path from source to destination over usable channels, within the hop
   * limit, with the amount and delay entering each channel stored in its hop.
   */
  lemma SearchSound(q: Query, r: Result<seq<RouteHop>, SearchError>)
    requires Answers(q, r) && r.Ok?
    ensures var p := ChannelsOf(r.value);
            && SimplePath(p, q.src, q.dst)
            && IsRoute(q, p, q.src, q.dst)
            && r.value == SearchHops(p, q.amount)
            && (p == [] || |p| <= q.maxHops)
            && Cost(p, q.amount) < 2147483648
  {
    var s :| Explains(q, s) && r == Outcome(q, s);
    OutcomeChannels(q, s);
    PathIsRoute(q, s, q.src);
    PathIsSimple(q, s, q.src);
    PathLength(q, s, q.src);
  }

  lemma PathLength(q: Query, s: SearchState, v: NodeId)
    requires Labels(q, s) && Tree(q, s) && Progress(q, s) && v in s.depth
    ensures Path(q, s, v) == [] || |Path(q, s, v)| <= q.maxHops
  {
    PathIsRoute(q, s, v);
    if v != q.dst { assert TreeEdge(q, s, v); }
  }

  /**
   * Neighbouring hops of a found route: each channel is active and within its limits and its
   * believed liquidity for the amount stored in the next hop, and its own hop adds its fee and delay.
   */
  lemma StoredHops(p: seq<ChannelState>, amount: nat, i: nat)
    requires Usable(p, amount) && i < |p|
    ensures var hops := SearchHops(p, amount);
            var leaving := if i + 1 < |p| then hops[i + 1].amount else amount;
            var delay := if i + 1 < |p| then hops[i + 1].delay else 0;
            && p[i].info.active && p[i].minHtlc <= leaving <= p[i].maxHtlc && leaving <= p[i].liquidity
            && hops[i].amount == leaving + ComputeFee(p[i].info, leaving)
            && hops[i].delay == delay + p[i].info.delay
  {
    UsableAt(p, amount, i);
    SearchHopsAt(p, amount, i);
    assert p[i..][1..] == p[i + 1..];
    if i + 1 < |p| { SearchHopsAt(p, amount, i + 1); } else { assert p[i + 1..] == []; }
  }

  // ---------------------------------------------------------------- optimality

  function HopLimit(q: Query): nat {
    if q.maxHops < 0 then 0 else q.maxHops
  }

  /**
   * The hop limit hides `p`: some node `u` on it has a detour, a simple usable route no dearer
   * than the rest of `p` that avoids the source and uses up exactly the hops allowed.
   */
  ghost predicate Hidden(q: Query, p: seq<ChannelState>) {
    exists i, t :: 0 <= i < |p| && Detour(q, p, i, t)
  }

  ghost predicate Detour(q: Query, p: seq<ChannelState>, i: nat, t: seq<ChannelState>)
    requires i < |p|
  {
    var u := p[i].info.destination;
    && IsRoute(q, t, u, q.dst) && SimplePath(t, u, q.dst)
    && u != q.src && q.src !in Sources(t)
    && |t| == HopLimit(q)
    && Cost(t, q.amount) <= Cost(p[i + 1..], q.amount)
  }

  ghost predicate NoneCut(s: SearchState, p: seq<ChannelState>) {
    forall i {:trigger p[i]} :: 0 <= i < |p| ==> p[i].info.destination !in s.cut
  }

  /** A channel into a followed-up node has been relaxed. */
  lemma RelaxedOver(q: Query, s: SearchState, c: ChannelState)
    requires Explains(q, s) && IdOf(c.info) in q.channels && q.channels[IdOf(c.info)] == c
    requires c.info.source in q.nodes && c.info.source !in q.exclude && c.info.destination in s.expanded
    requires CanForward(c, q.amount + DistanceOf(s.distance, c.info.destination))
    ensures var near := DistanceOf(s.distance, c.info.destination);
            c.info.source in s.distance && s.distance[c.info.source] <= near + ComputeFee(c.info, q.amount + near)
  {
    hide Tree, Progress, IdOf, CanForward, ComputeFee;
    assert Settled(s, c.info.destination);
    ExpandedKnown(q, s, c.info.destination);
    assert RelaxedAt(q, s, IdOf(c.info));
  }

  lemma ExpandedKnown(q: Query, s: SearchState, u: NodeId)
    requires Labels(q, s) && Progress(q, s) && u in s.expanded
    ensures u in s.depth && u in q.nodes && u in s.distance && s.distance[u] >= 0
  {
    assert Settled(s, u);
  }

  /** Relaxing the first channel of a usable route whose rest is labelled no dearer. */
  lemma StepBound(q: Query, s: SearchState, p: seq<ChannelState>)
    requires Explains(q, s) && p != [] && AcceptsMinimum(p, q.amount)
    requires IsRoute(q, p, p[0].info.source, q.dst) && p[0].info.source in q.nodes
    requires p[0].info.destination in s.expanded
    requires s.distance[p[0].info.destination] <= Cost(p[1..], q.amount)
    ensures s.distance[p[0].info.source] <= Cost(p, q.amount)
  {
    var c := p[0];
    var u := c.info.destination;
    var near, far := q.amount + s.distance[u], Entering(p[1..], q.amount);
    hide Explains, IdOf, ComputeFee;
    CanForwardLess(c, near, far);
    FeeMonotone(c.info, near, far);
    RelaxedOver(q, s, c);
  }

  /** A node the search has not settled is no nearer than the source. */
  lemma OpenIsFar(q: Query, s: SearchState, u: NodeId)
    requires Explains(q, s) && u in q.nodes && !Settled(s, u)
    ensures s.distance[u] >= s.distance[q.src]
  {
  }

  lemma IsRouteTail(q: Query, p: seq<ChannelState>, v: NodeId)
    requires p != [] && IsRoute(q, p, v, q.dst)
    ensures IsRoute(q, p[1..], p[0].info.destination, q.dst)
  {
    forall i | 0 <= i < |p[1..]|
      ensures && IdOf(p[1..][i].info) in q.channels && q.channels[IdOf(p[1..][i].info)] == p[1..][i]
              && p[1..][i].info.source !in q.exclude
    {
      assert p[1..][i] == p[i + 1];
    }
  }

  /** Final labels are lower bounds along routes that meet no node dropped for its hop count. */
  lemma {:induction false} LowerBound(q: Query, s: SearchState, p: seq<ChannelState>, v: NodeId)
    requires Explains(q, s) && v in q.nodes
    requires IsRoute(q, p, v, q.dst) && AcceptsMinimum(p, q.amount) && NoneCut(s, p)
    ensures s.distance[v] <= Cost(p, q.amount) || s.distance[q.src] <= Cost(p, q.amount)
  {
    if p != [] {
      var u := p[0].info.destination;
      assert q.channels[IdOf(p[0].info)] == p[0];
      IsRouteTail(q, p, v);
      LowerBound(q, s, p[1..], u);
      assert Cost(p[1..], q.amount) <= Cost(p, q.amount);
      if s.distance[u] <= Cost(p[1..], q.amount) < s.distance[q.src] {
        if u in s.expanded {
          StepBound(q, s, p);
        } else {
          OpenIsFar(q, s, u);
        }
      }
    }
  }

  /** The part of `p` behind its last dropped node. */
  lemma {:induction false} LastCut(q: Query, s: SearchState, p: seq<ChannelState>, v: NodeId) returns (i: nat)
    requires Explains(q, s) && IsRoute(q, p, v, q.dst) && AcceptsMinimum(p, q.amount) && !NoneCut(s, p)
    ensures i < |p| && p[i].info.destination in s.cut && p[i].info.destination in q.nodes
    ensures NoneCut(s, p[i + 1..]) && AcceptsMinimum(p[i + 1..], q.amount)
    ensures IsRoute(q, p[i + 1..], p[i].info.destination, q.dst)
    ensures Cost(p[i + 1..], q.amount) <= Cost(p, q.amount)
  {
    IsRouteTail(q, p, v);
    assert q.channels[IdOf(p[0].info)] == p[0];
    if NoneCut(s, p[1..]) {
      i := 0;
      assert forall j {:trigger p[j]} :: 1 <= j < |p| ==> p[j] == p[1..][j - 1];
    } else {
      var j := LastCut(q, s, p[1..], p[0].info.destination);
      i := j + 1;
      assert p[1..][j + 1..] == p[i + 1..];
    }
  }

  /**
   * The answer is no dearer than any usable route whose channels accept the searched amount,
   * except a route hidden by the hop limit; "no route" means all of them cost 2^31 msat or more.
   */
  lemma CheapestOrHidden(q: Query, r: Result<seq<RouteHop>, SearchError>, p: seq<ChannelState>)
    requires Answers(q, r) && r != Err(NoSuchNode)
    requires IsRoute(q, p, q.src, q.dst) && AcceptsMinimum(p, q.amount) && !Hidden(q, p)
    ensures match r
            case Ok(hops) => Cost(ChannelsOf(hops), q.amount) <= Cost(p, q.amount)
            case Err(_) => Cost(p, q.amount) >= MAX_DISTANCE
  {
    var s :| Explains(q, s) && r == Outcome(q, s);
    if r.Ok? {
      PathIsRoute(q, s, q.src);
      SearchSound(q, r);
      OutcomeChannels(q, s);
    }
    if NoneCut(s, p) {
      LowerBound(q, s, p, q.src);
    } else {
      var i := LastCut(q, s, p, q.src);
      var u := p[i].info.destination;
      LowerBound(q, s, p[i + 1..], u);
      if s.distance[u] <= Cost(p[i + 1..], q.amount) {
        CutIsDetour(q, s, p, i);
      }
    }
  }

  lemma CutIsDetour(q: Query, s: SearchState, p: seq<ChannelState>, i: nat)
    requires Explains(q, s) && i < |p| && p[i].info.destination in s.cut
    requires s.distance[p[i].info.destination] <= Cost(p[i + 1..], q.amount)
    ensures Hidden(q, p)
  {
    var u := p[i].info.destination;
    var t := Path(q, s, u);
    PathIsRoute(q, s, u);
    PathIsSimple(q, s, u);
    PathDepths(q, s, u);
    PathLength(q, s, u);
    forall j | 0 <= j < |t| ensures Sources(t)[j] != q.src {
      if j == 0 { assert t[0].info.source == u; } else { assert t[j].info.source in s.expanded; }
    }
    assert Detour(q, p, i, t);
  }
}
