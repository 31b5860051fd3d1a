/** What a hop limit does to the search: over which graphs it is harmless, and a family on which it is not. */
module HopLimits {
  import opened Base
  import opened Channels
  import opened Routes
  import opened Search
  import opened Optimality
  import opened Store
  import opened StoredGraphs
  import opened Completeness

  // ---------------------------------------------------------------- harmless limits

  /** The answer `r` is a route no dearer than `p`. */
  ghost predicate Matches(q: Query, r: Result<seq<RouteHop>, SearchError>, p: seq<ChannelState>) {
    r.Ok? && Cost(ChannelsOf(r.value), q.amount) <= Cost(p, q.amount)
  }

  /** A route within the hop limit and below the search's infinity, all channels accepting the amount. */
  ghost predicate WithinLimits(q: Query, p: seq<ChannelState>) {
    && IsRoute(q, p, q.src, q.dst) && AcceptsMinimum(p, q.amount)
    && |p| <= q.maxHops && Cost(p, q.amount) < MAX_DISTANCE
  }

  /** Whatever its choices, the search answers `q` with a cheapest route within the limits. */
  ghost predicate Reliable(q: Query) {
    forall r, p :: Answers(q, r) && WithinLimits(q, p) ==> Matches(q, r, p)
  }

  ghost predicate Sized(q: Query, n: nat, k: int) {
    WellFormed(q) && q.src in q.nodes && q.dst in q.nodes && |q.nodes| == n && q.maxHops == k
  }

  /** A hop limit of one hides no route of one hop. */
  lemma OneHopNotHidden(q: Query, p: seq<ChannelState>)
    requires IsRoute(q, p, q.src, q.dst) && |p| <= q.maxHops <= 1
    ensures !Hidden(q, p)
  {
    forall i, t | 0 <= i < |p| && Detour(q, p, i, t) ensures false {
      OneHopEnds(p, q.src, q.dst);
      RoundTripEmpty(t, q.dst);
    }
  }

  lemma OneHopEnds(p: seq<ChannelState>, src: NodeId, dst: NodeId)
    requires |p| == 1 && Connects(p, src, dst)
    ensures p[0].info.destination == dst
  {
    assert Connects(p[1..], p[0].info.destination, dst);
  }

  lemma HarmlessLimit(q: Query, n: nat, k: int)
    requires Sized(q, n, k) && (k <= 1 || k >= n - 1)
    ensures Reliable(q)
  {
    forall r, p | Answers(q, r) && WithinLimits(q, p) ensures Matches(q, r, p) {
      if q.src == q.dst {
        SameNode(q, r);
      } else {
        if k <= 1 { OneHopNotHidden(q, p); } else { NothingHidden(q, p); }
        CheapestOrHidden(q, r, p);
      }
    }
  }

  // ---------------------------------------------------------------- the ladder

  /** The nodes 0 to `n - 1`. */
  function Range(n: nat): (r: set<NodeId>)
    ensures |r| == n && forall v :: v in r <==> 0 <= v < n
  {
    if n == 0 then {} else Range(n - 1) + {n - 1}
  }

  /**
   * Channel `i` of the ladder leads from node `i` to node `i - 1`, channel 0 from node `k` to node 0. The
   * channels from `k + 2` on lead from node 0 to the nodes that no rung leads to; no route uses them.
   */
  function Rung(k: nat, i: int): ChannelState {
    if i == 0 then Flat(0, k, 0, 10, 100, 0)
    else if i <= k + 1 then Flat(i, i, i - 1, 0, 100, 0)
    else Flat(i, 0, i - 1, 0, 100, 0)
  }

  function RungDirection(k: nat, i: int): int {
    if i <= k + 1 then 1 else 0
  }

  /** The first `m` channels of the ladder. */
  function Rungs(k: nat, m: nat): (r: map<ChannelId, ChannelState>)
    ensures forall id :: id in r <==> 0 <= id.scid < m && id.direction == RungDirection(k, id.scid)
    ensures forall id :: id in r ==> r[id] == Rung(k, id.scid)
  {
    if m == 0 then map[] else Rungs(k, m - 1)[ChannelId(m - 1, RungDirection(k, m - 1)) := Rung(k, m - 1)]
  }

  /**
   * A free chain from node `k + 1` down to node 0, and a direct channel from `k` to 0 for a fee,
   * searched with hop limit `h`. With `h` equal to `k` the chain labels node `k` first, with all
   * hops used up, and the two-hop route over the direct channel stays unseen.
   */
  function Ladder(n: nat, k: nat, h: int): Query {
    Query(Rungs(k, n + 1), Range(n), k + 1, 0, 1, {}, h)
  }

  /** The route over the direct channel. */
  function Shortcut(k: nat): seq<ChannelState> {
    [Rung(k, k + 1), Rung(k, 0)]
  }

  lemma LadderSized(n: nat, k: nat, h: int)
    requires 2 <= k <= n - 2
    ensures Sized(Ladder(n, k, h), n, h)
  {
    var q := Ladder(n, k, h);
    forall id | id in q.channels ensures IdOf(q.channels[id].info) == id && q.channels[id].info.destination in q.nodes {
      RungId(k, id.scid);
    }
  }

  /** The ladder is a graph the store can hold. */
  lemma LadderStorable(n: nat, k: nat, h: int)
    requires 2 <= k <= n - 2
    ensures Storable(Ladder(n, k, h))
  {
    var q := Ladder(n, k, h);
    var reg: Registry := i => Funding(Rung(k, i).info.source, Rung(k, i).info.destination, 100);
    forall id | id in q.channels
      ensures IdOf(q.channels[id].info) == id && Conforms(reg, q.channels[id].info) && KeepsLimits(q.channels[id])
    {
      RungId(k, id.scid);
      RungConforms(k, id.scid, reg);
    }
    forall v ensures v in q.nodes <==> LeadsTo(q.channels, v) { RungTo(n, k, h, v); }
    hide LeadsTo, Ladder, IdOf, Conforms, KeepsLimits, Storable;
    StorableWith(q, reg);
  }

  lemma RungConforms(k: nat, i: int, reg: Registry)
    requires 0 <= i && reg(i) == Funding(Rung(k, i).info.source, Rung(k, i).info.destination, 100)
    ensures Conforms(reg, Rung(k, i).info) && KeepsLimits(Rung(k, i))
  {
  }

  /** The nodes of the ladder are those its channels lead to. */
  lemma RungTo(n: nat, k: nat, h: int, v: NodeId)
    requires 2 <= k <= n - 2
    ensures 0 <= v < n <==> LeadsTo(Ladder(n, k, h).channels, v)
  {
    var channels := Ladder(n, k, h).channels;
    if 0 <= v < n {
      var id := ChannelId(v + 1, RungDirection(k, v + 1));
      assert id in channels && channels[id].info.destination == v;
    }
  }

  lemma RungId(k: nat, i: int)
    requires 2 <= k && 0 <= i
    ensures IdOf(Rung(k, i).info) == ChannelId(i, RungDirection(k, i))
  {
  }

  /** Channel `i` is in the ladder's graph. */
  lemma RungKnown(n: nat, k: nat, h: int, i: int)
    requires 2 <= k <= n - 2 && 0 <= i <= k + 1
    ensures var q, c := Ladder(n, k, h), Rung(k, i);
            IdOf(c.info) in q.channels && q.channels[IdOf(c.info)] == c
  {
    RungId(k, i);
  }

  /** The only channel from a node above 0 is its rung, but for node `k`, where the direct channel starts too. */
  lemma RungFrom(n: nat, k: nat, h: int, c: ChannelState)
    requires 2 <= k && IdOf(c.info) in Ladder(n, k, h).channels && Ladder(n, k, h).channels[IdOf(c.info)] == c
    ensures var v := c.info.source;
            v != 0 ==> 0 < v <= k + 1 && (c == Rung(k, v) || (v == k && c == Rung(k, 0)))
  {
    var i := IdOf(c.info).scid;
    assert c == Rung(k, i);
  }

  lemma RungFee(k: nat, i: int, amount: nat)
    ensures ComputeFee(Rung(k, i).info, amount) == if i == 0 then 10 else 0
  {
  }

  /** The route over the direct channel is usable. */
  lemma ShortcutIsRoute(n: nat, k: nat, h: int)
    requires 2 <= k <= n - 2
    ensures var q, p := Ladder(n, k, h), Shortcut(k);
            IsRoute(q, p, q.src, q.dst) && AcceptsMinimum(p, q.amount) && Cost(p, q.amount) == 10
  {
    var q := Ladder(n, k, h);
    var first, direct := Rung(k, k + 1), Rung(k, 0);
    RungKnown(n, k, h, 0);
    RungKnown(n, k, h, k + 1);
    RungFee(k, 0, 1);
    RungFee(k, k + 1, 11);
    assert IsRoute(q, [], 0, 0);
    hide Ladder, IdOf, ComputeFee;
    IsRouteCons(q, direct, []);
    assert [direct] + [] == [direct];
    IsRouteCons(q, first, [direct]);
    assert [first] + [direct] == Shortcut(k);
  }

  // ---------------------------------------------------------------- the limit that loses the route

  /** The parent of node `v` in the label tree, and the rung to it. */
  lemma LadderEdge(n: nat, k: nat, h: int, s: SearchState, v: NodeId)
    requires 2 <= k <= n - 2 && Explains(Ladder(n, k, h), s) && v in s.depth && v != 0
    ensures var i := if s.hop[v].channel == Rung(k, v) then v else 0;
            var u := if i == 0 then 0 else v - 1;
            && v in s.hop && 0 < v <= k + 1 && s.hop[v].channel == Rung(k, i) && (i == 0 ==> v == k)
            && u in s.expanded && u in s.depth
            && s.depth[v] == s.depth[u] + 1 && s.distance[v] == s.distance[u] + if i == 0 then 10 else 0
  {
    LadderBottomIsRoot(n, k, h);
    hide Explains, Ladder, ComputeFee, IdOf;
    var q := Ladder(n, k, h);
    TreeEdgeAt(q, s, v);
    var c := s.hop[v].channel;
    RungFrom(n, k, h, c);
    RungFee(k, v, q.amount + s.distance[c.info.destination]);
    RungFee(k, 0, q.amount + s.distance[c.info.destination]);
  }

  lemma LadderBottomIsRoot(n: nat, k: nat, h: int)
    ensures Ladder(n, k, h).dst == 0
  {
  }

  lemma TreeEdgeAt(q: Query, s: SearchState, v: NodeId)
    requires Explains(q, s) && v in s.depth && v != q.dst
    ensures v in s.hop && s.hop[v].channel.info.source == v
    ensures var c := s.hop[v].channel;
            var u := c.info.destination;
            && IdOf(c.info) in q.channels && q.channels[IdOf(c.info)] == c
            && u in s.expanded && u in s.depth && u in s.distance && v in s.distance && s.distance[u] >= 0
            && s.distance[v] == s.distance[u] + ComputeFee(c.info, q.amount + s.distance[u])
            && s.depth[v] == s.depth[u] + 1
  {
    assert TreeEdge(q, s, v);
  }

  /** Below node `k` the hop count of a label is the node's number. */
  lemma {:induction false} LadderDepth(n: nat, k: nat, h: int, s: SearchState, i: nat)
    requires 2 <= k <= n - 2 && Explains(Ladder(n, k, h), s) && i < k && i in s.depth
    ensures s.depth[i] == i
  {
    if i > 0 {
      hide Explains, Ladder, Rung;
      LadderEdge(n, k, h, s, i);
      LadderDepth(n, k, h, s, i - 1);
    } else {
      assert Labels(Ladder(n, k, h), s);
    }
  }

  /** Below node `k` every node is labelled 0 and followed up, if the source is labelled above 0. */
  lemma {:induction false} LadderFree(n: nat, k: nat, s: SearchState, i: nat)
    requires 2 <= k <= n - 2 && Explains(Ladder(n, k, k), s) && i < k
    requires k + 1 in s.distance && s.distance[k + 1] > 0
    ensures i in s.depth && i in s.distance && s.distance[i] == 0 && i in s.expanded
  {
    hide Explains, Ladder;
    if i > 0 {
      LadderFree(n, k, s, i - 1);
      LadderStep(n, k, s, i);
    } else {
      LadderBottom(n, k, s);
    }
    NearIsLabelled(n, k, s, i);
    LadderDepth(n, k, k, s, i);
    NearIsExpanded(n, k, s, i);
  }

  lemma LadderBottom(n: nat, k: nat, s: SearchState)
    requires Explains(Ladder(n, k, k), s)
    ensures 0 in s.distance && s.distance[0] == 0
  {
    hide Explains;
    AtDestination(Ladder(n, k, k), s);
  }

  lemma NearIsLabelled(n: nat, k: nat, s: SearchState, i: nat)
    requires 2 <= k <= n - 2 && Explains(Ladder(n, k, k), s) && i < k && i in s.distance && s.distance[i] == 0
    ensures i in s.depth
  {
  }

  /** A node nearer than the source, with hops left, has been followed up. */
  lemma NearIsExpanded(n: nat, k: nat, s: SearchState, i: nat)
    requires 2 <= k <= n - 2 && Explains(Ladder(n, k, k), s) && i in s.depth && i != k + 1
    requires s.depth[i] < k && k + 1 in s.distance && i in s.distance && s.distance[i] < s.distance[k + 1]
    ensures i in s.expanded
  {
  }

  lemma LadderStep(n: nat, k: nat, s: SearchState, i: nat)
    requires 2 <= k <= n - 2 && Explains(Ladder(n, k, k), s) && 0 < i <= k
    requires i - 1 in s.expanded && i - 1 in s.distance && s.distance[i - 1] == 0
    ensures i in s.distance && s.distance[i] == 0
  {
    RungKnown(n, k, k, i);
    RungFee(k, i, 1);
    RelaxedRung(n, k, s, i);
    LabelsNotNegative(Ladder(n, k, k), s, i);
  }

  lemma RelaxedRung(n: nat, k: nat, s: SearchState, i: nat)
    requires 2 <= k <= n - 2 && Explains(Ladder(n, k, k), s) && 0 < i <= k
    requires i - 1 in s.expanded && i - 1 in s.distance && s.distance[i - 1] == 0
    ensures i in s.distance && s.distance[i] <= ComputeFee(Rung(k, i).info, 1)
  {
    hide Explains, ComputeFee;
    RungKnown(n, k, k, i);
    RelaxedOver(Ladder(n, k, k), s, Rung(k, i));
  }

  lemma LabelsNotNegative(q: Query, s: SearchState, v: NodeId)
    requires Explains(q, s) && v in s.distance
    ensures s.distance[v] >= 0
  {
  }

  /** A label of the source would come over the direct channel. */
  lemma LadderTop(n: nat, k: nat, s: SearchState)
    requires 2 <= k <= n - 2 && Explains(Ladder(n, k, k), s) && k + 1 in s.depth
    ensures k in s.distance && k + 1 in s.distance && s.distance[k + 1] == s.distance[k] == 10
  {
    LadderEdge(n, k, k, s, k + 1);
    LadderEdge(n, k, k, s, k);
    AtDestination(Ladder(n, k, k), s);
    if s.hop[k].channel == Rung(k, k) {
      LadderDepth(n, k, k, s, k - 1);
      ExpandedHasHops(Ladder(n, k, k), s, k);
    }
  }

  lemma ExpandedHasHops(q: Query, s: SearchState, v: NodeId)
    requires Explains(q, s) && v in s.expanded
    ensures v in s.depth && s.depth[v] < q.maxHops
  {
    assert Settled(s, v);
  }

  lemma LadderUnlabelled(n: nat, k: nat, s: SearchState)
    requires 2 <= k <= n - 2 && Explains(Ladder(n, k, k), s)
    ensures k + 1 !in s.depth
  {
    hide Explains, Ladder;
    if k + 1 in s.depth {
      LadderTop(n, k, s);
      LadderFree(n, k, s, k - 1);
      LadderStep(n, k, s, k);
    }
  }

  /** With as many hops allowed as the direct channel's node is away along the chain, the search answers "no route". */
  lemma LadderMissed(n: nat, k: nat, r: Result<seq<RouteHop>, SearchError>)
    requires 2 <= k <= n - 2 && Answers(Ladder(n, k, k), r)
    ensures Storable(Ladder(n, k, k)) && r == Err(NoRoute)
  {
    hide Explains, Outcome, Storable;
    LadderStorable(n, k, k);
    LadderSized(n, k, k);
    var s :| Explains(Ladder(n, k, k), s) && r == Outcome(Ladder(n, k, k), s);
    LadderUnlabelled(n, k, s);
    UnlabelledIsNoRoute(Ladder(n, k, k), s);
  }

  lemma UnlabelledIsNoRoute(q: Query, s: SearchState)
    requires Explains(q, s) && q.src !in s.depth
    ensures Outcome(q, s) == Err(NoRoute)
  {
  }

  /**
   * Over all graphs of `n` nodes, a hop limit `k` keeps the cheapest route within the limits in
   * sight exactly when it is at most one or at least `n - 1`; with any other limit the search fails
   * on a graph that the store can hold.
   */
  lemma ReliableIffFewOrEnoughHops(n: nat, k: int)
    ensures (forall q :: Sized(q, n, k) ==> Reliable(q)) <==> (k <= 1 || k >= n - 1)
    ensures 1 < k < n - 1 ==> exists q :: Sized(q, n, k) && Storable(q) && !Reliable(q)
  {
    if k <= 1 || k >= n - 1 {
      forall q | Sized(q, n, k) ensures Reliable(q) { HarmlessLimit(q, n, k); }
    } else {
      var q := Ladder(n, k, k);
      LadderSized(n, k, k);
      ShortcutIsRoute(n, k, k);
      var r := AnswerExists(q);
      LadderMissed(n, k, r);
      assert WithinLimits(q, Shortcut(k)) && !Matches(q, r, Shortcut(k));
    }
  }

  // ---------------------------------------------------------------- every other limit

  /** A simple path down the chain from a node below `k` has as many hops as the node's number. */
  lemma {:induction false} ChainLength(n: nat, k: nat, h: int, t: seq<ChannelState>, i: nat)
    requires 2 <= k && i < k && IsRoute(Ladder(n, k, h), t, i, 0) && 0 !in Sources(t)
    ensures |t| == i
  {
    var q := Ladder(n, k, h);
    if t != [] {
      FirstSource(t);
      RungFrom(n, k, h, t[0]);
      assert i != 0;
      IsRouteTail(q, t, i);
      assert forall x :: x in Sources(t[1..]) ==> x in Sources(t);
      ChainLength(n, k, h, t[1..], i - 1);
    }
  }

  /** A simple path from node `k` has one hop or `k`. */
  lemma TopLength(n: nat, k: nat, h: int, t: seq<ChannelState>)
    requires 2 <= k && IsRoute(Ladder(n, k, h), t, k, 0) && 0 !in Sources(t)
    ensures |t| == 1 || |t| == k
  {
    var q := Ladder(n, k, h);
    FirstSource(t);
    RungFrom(n, k, h, t[0]);
    IsRouteTail(q, t, k);
    assert forall x :: x in Sources(t[1..]) ==> x in Sources(t);
    ChainLength(n, k, h, t[1..], if t[0] == Rung(k, 0) then 0 else k - 1);
  }

  /** No other limit hides the route over the direct channel. */
  lemma ShortcutNotHidden(n: nat, k: nat, h: int)
    requires 2 <= k <= n - 2 && h >= 2 && h != k
    ensures !Hidden(Ladder(n, k, h), Shortcut(k))
  {
    var q, p := Ladder(n, k, h), Shortcut(k);
    forall i, t | 0 <= i < |p| && Detour(q, p, i, t) ensures false {
      if i == 0 { TopLength(n, k, h, t); } else { RoundTripEmpty(t, 0); }
    }
  }

  /** A route of the ladder has at least two hops. */
  lemma TwoHopsNeeded(n: nat, k: nat, h: int, p: seq<ChannelState>)
    requires 2 <= k && IsRoute(Ladder(n, k, h), p, k + 1, 0)
    ensures |p| >= 2
  {
    assert p != [];
    RungFrom(n, k, h, p[0]);
    if |p| == 1 { OneHopEnds(p, k + 1, 0); }
  }

  /**
   * The search finds a route of the ladder exactly with a limit of two hops or more, but for the
   * limit `k`: raising a limit from 2 to `k` loses the route, raising it further finds it again.
   */
  lemma LadderFoundIff(n: nat, k: nat, h: int, r: Result<seq<RouteHop>, SearchError>)
    requires 2 <= k <= n - 2 && Answers(Ladder(n, k, h), r)
    ensures Storable(Ladder(n, k, h))
    ensures r.Ok? <==> h >= 2 && h != k
    ensures r.Ok? ==> Cost(ChannelsOf(r.value), 1) <= 10
  {
    var q := Ladder(n, k, h);
    LadderSized(n, k, h);
    LadderStorable(n, k, h);
    ShortcutIsRoute(n, k, h);
    hide Answers, IsRoute, Ladder;
    if h == k {
      LadderMissed(n, k, r);
    } else if h >= 2 {
      ShortcutNotHidden(n, k, h);
      CheapestOrHidden(q, r, Shortcut(k));
    } else if r.Ok? {
      SearchSound(q, r);
      TwoHopsNeeded(n, k, h, ChannelsOf(r.value));
    }
  }
}
