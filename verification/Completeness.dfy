/**
 * Every query has an answer; with enough hops it is a cheapest route, exactly if no HTLC minimum is
 * above the amount.
 */
module Completeness {
  import opened Base
  import opened Channels
  import opened Routes
  import opened Search
  import opened Optimality
  import opened Store
  import opened StoredGraphs

  // ---------------------------------------------------------------- every query has an answer

  lemma LeastEntry(queue: multiset<Entry>) returns (e: Entry)
    requires queue != multiset{}
    ensures Least(queue, e)
  {
    var x :| x in queue;
    var rest := queue - multiset{x};
    e := x;
    assert forall y :: y in queue ==> y == x || y in rest;
    if rest != multiset{} {
      var f := LeastEntry(rest);
      e := if f.priority < x.priority then f else x;
    }
  }

  /** Looking at all channels of `todo`, one by one. */
  lemma {:induction false} RelaxAll(q: Query, s: SearchState, u: NodeId, todo: set<ChannelId>)
    returns (t: SearchState)
    requires Expanding(q, s, u, todo) && todo <= Into(q, u)
    ensures Expanding(q, t, u, {}) && t.expanded == s.expanded && t.cut == s.cut
    decreases todo
  {
    t := s;
    if todo != {} {
      var id :| id in todo;
      RelaxInv(q, s, id, todo);
      t := RelaxAll(q, Relax(q, s, q.channels[id]), u, todo - {id});
    }
  }

  /** Steps of the search from any state it can be in, up to where it stops. */
  lemma {:induction false} Finish(q: Query, s: SearchState) returns (t: SearchState)
    requires Inv(q, s, {}) && q.src in q.nodes
    ensures Explains(q, t)
    decreases q.nodes - s.expanded - s.cut, |s.queue|
  {
    if s.queue == multiset{} {
      StopsWhenEmpty(q, s);
      return s;
    }
    var e := LeastEntry(s.queue);
    var u := e.value.node;
    LiveEntry(q, s, e);
    if e.priority > s.distance[u] {
      SkipInv(q, s, e);
      t := Finish(q, Without(s, e));
    } else if u == q.src {
      StopsAtSource(q, s, e);
      t := Without(s, e);
    } else if e.value.hops >= q.maxHops {
      DropInv(q, s, e);
      assert u in q.nodes - s.expanded - s.cut;
      t := Finish(q, Drop(s, e));
    } else {
      ExpandInv(q, s, e);
      assert u in q.nodes - s.expanded - s.cut;
      var x := RelaxAll(q, Expand(s, e), u, Into(q, u));
      t := Finish(q, x);
    }
  }

  lemma AnswerExists(q: Query) returns (r: Result<seq<RouteHop>, SearchError>)
    requires WellFormed(q)
    ensures Answers(q, r)
  {
    if q.src in q.nodes && q.dst in q.nodes {
      StartInv(q);
      var t := Finish(q, Start(q));
      r := Outcome(q, t);
    } else {
      r := Err(NoSuchNode);
    }
  }

  // ---------------------------------------------------------------- enough hops

  lemma {:induction false} DistinctSize(s: seq<NodeId>)
    requires Distinct(s)
    ensures |set x | x in s| == |s|
  {
    if s != [] {
      DistinctSize(s[1..]);
      assert (set x | x in s) == (set x | x in s[1..]) + {s[0]};
    }
  }

  lemma SubsetSize(a: set<NodeId>, b: set<NodeId>)
    requires a <= b
    ensures |a| <= |b|
  {
    assert b == a + (b - a);
  }

  lemma {:induction false} SourcesKnown(q: Query, p: seq<ChannelState>, v: NodeId, dst: NodeId)
    requires WellFormed(q) && Connects(p, v, dst) && v in q.nodes
    requires forall i {:trigger p[i]} :: 0 <= i < |p| ==>
               IdOf(p[i].info) in q.channels && q.channels[IdOf(p[i].info)] == p[i]
    ensures forall x :: x in Sources(p) ==> x in q.nodes
  {
    if p != [] {
      assert q.channels[IdOf(p[0].info)] == p[0];
      SourcesKnown(q, p[1..], p[0].info.destination, dst);
    }
  }

  lemma VisitedSize(t: seq<NodeId>, a: NodeId, b: NodeId, nodes: set<NodeId>)
    requires Distinct(t) && a !in t && b !in t && a != b
    requires a in nodes && b in nodes && forall x :: x in t ==> x in nodes
    ensures |t| + 2 <= |nodes|
  {
    DistinctSize(t);
    var visited := (set x | x in t) + {a} + {b};
    assert |visited| == |t| + 2;
    SubsetSize(visited, nodes);
  }

  /** A hop limit of at least the number of nodes less one hides nothing. */
  lemma NothingHidden(q: Query, p: seq<ChannelState>)
    requires WellFormed(q) && q.src in q.nodes && q.dst in q.nodes && q.src != q.dst
    requires IsRoute(q, p, q.src, q.dst) && q.maxHops >= |q.nodes| - 1
    ensures !Hidden(q, p)
  {
    hide WellFormed, Usable;
    forall i, t | 0 <= i < |p| && Detour(q, p, i, t) ensures false {
      DestinationKnown(q, p[i]);
      SourcesKnown(q, t, p[i].info.destination, q.dst);
      VisitedSize(Sources(t), q.src, q.dst, q.nodes);
    }
  }

  lemma DestinationKnown(q: Query, c: ChannelState)
    requires WellFormed(q) && IdOf(c.info) in q.channels && q.channels[IdOf(c.info)] == c
    ensures c.info.destination in q.nodes
  {
  }

  /**
   * With at least as many hops as nodes less one, and HTLC minimums not above the amount: the
   * answer is the cheapest usable route, and there is none exactly when none costs below 2^31 msat.
   */
  lemma CheapestWithEnoughHops(q: Query, r: Result<seq<RouteHop>, SearchError>)
    requires WellFormed(q) && q.src in q.nodes && q.dst in q.nodes && Answers(q, r)
    requires q.maxHops >= |q.nodes| - 1
    requires forall id :: id in q.channels ==> q.channels[id].minHtlc <= q.amount
    ensures r.Ok? ==> forall p :: IsRoute(q, p, q.src, q.dst) ==>
              Cost(ChannelsOf(r.value), q.amount) <= Cost(p, q.amount)
    ensures r.Ok? || r == Err(NoRoute)
    ensures r == Err(NoRoute) <==>
            !exists p :: IsRoute(q, p, q.src, q.dst) && Cost(p, q.amount) < 2147483648
  {
    assert r != Err(NoSuchNode);
    forall p | IsRoute(q, p, q.src, q.dst)
      ensures match r
              case Ok(hops) => Cost(ChannelsOf(hops), q.amount) <= Cost(p, q.amount)
              case Err(_) => Cost(p, q.amount) >= MAX_DISTANCE
    {
      if q.src == q.dst {
        SameNode(q, r);
      } else {
        assert AcceptsMinimum(p, q.amount);
        NothingHidden(q, p);
        CheapestOrHidden(q, r, p);
      }
    }
    if r.Ok? { SearchSound(q, r); }
  }

  /** From a node to itself the answer is the empty route. */
  lemma SameNode(q: Query, r: Result<seq<RouteHop>, SearchError>)
    requires Answers(q, r) && q.src == q.dst && q.src in q.nodes
    ensures r == Ok([])
  {
  }

  // ---------------------------------------------------------------- lower HTLC limits

  /** No usable route of the graph is cheaper than what the search answers, whatever its choices. */
  ghost predicate Complete(q: Query) {
    forall r, p :: Answers(q, r) && IsRoute(q, p, q.src, q.dst) ==> NoDearer(q, r, p)
  }

  /** The answer is a route no dearer than `p`, or `p` costs the search's infinity. */
  ghost predicate NoDearer(q: Query, r: Result<seq<RouteHop>, SearchError>, p: seq<ChannelState>) {
    match r
    case Ok(hops) => Cost(ChannelsOf(hops), q.amount) <= Cost(p, q.amount)
    case Err(_) => Cost(p, q.amount) >= MAX_DISTANCE
  }

  /** A query for `amount` with enough hops over channels whose HTLC minimums are at most `m`. */
  ghost predicate Roomy(q: Query, amount: nat, m: nat) {
    && WellFormed(q) && q.src in q.nodes && q.dst in q.nodes && q.maxHops >= |q.nodes| - 1
    && q.amount == amount && forall id :: id in q.channels ==> q.channels[id].minHtlc <= m
  }

  /**
   * Over all queries with enough hops the search is complete exactly if no HTLC minimum may exceed
   * the amount; otherwise it fails on a graph that the store can hold.
   */
  lemma CompleteIffMinimumsAccept(amount: nat, m: nat)
    ensures (forall q :: Roomy(q, amount, m) ==> Complete(q)) <==> m <= amount
    ensures m > amount ==> exists q :: Roomy(q, amount, m) && Storable(q) && !Complete(q)
  {
    if m <= amount {
      forall q | Roomy(q, amount, m) ensures Complete(q) { RoomyIsComplete(q, amount, m); }
    } else {
      var q := Threshold(amount);
      ThresholdRoomy(amount, m);
      var r := AnswerExists(q);
      MinimumHidesRoute(amount, r);
      assert !NoDearer(q, r, ThresholdPath(amount));
    }
  }

  lemma RoomyIsComplete(q: Query, amount: nat, m: nat)
    requires Roomy(q, amount, m) && m <= amount
    ensures Complete(q)
  {
    forall r, p | Answers(q, r) && IsRoute(q, p, q.src, q.dst) ensures NoDearer(q, r, p) {
      CheapestWithEnoughHops(q, r);
    }
  }

  /** A channel for a flat fee that can forward anything from `minimum` up to `amount`. */
  function Flat(scid: Scid, source: NodeId, destination: NodeId, fee: nat, amount: nat, minimum: nat): ChannelState {
    ChannelState(Gossip(scid, source, destination, amount, true, 0, fee, 0, 0, minimum, amount),
                 amount, 0, amount, minimum)
  }

  lemma FlatFee(scid: Scid, source: NodeId, destination: NodeId, fee: nat, amount: nat, minimum: nat, carried: nat)
    ensures ComputeFee(Flat(scid, source, destination, fee, amount, minimum).info, carried) == fee
  {
  }

  /** Two parallel channels from node 1 to node 0, one free and one for 10 msat, one from 2 to 1, and one into 2. */
  function Threshold(amount: nat): Query {
    Query(map[ChannelId(0, 1) := Flat(0, 1, 0, 0, amount, 0), ChannelId(1, 1) := Flat(1, 1, 0, 10, amount, 0),
              ChannelId(2, 1) := Flat(2, 2, 1, 0, amount + 10, amount + 1),
              ChannelId(3, 0) := Flat(3, 0, 2, 0, amount, 0)],
          {0, 1, 2}, 2, 0, amount, {}, 2)
  }

  /** The route over the dearer of the parallel channels. */
  function ThresholdPath(amount: nat): seq<ChannelState> {
    [Flat(2, 2, 1, 0, amount + 10, amount + 1), Flat(1, 1, 0, 10, amount, 0)]
  }

  lemma ThresholdRoomy(amount: nat, m: nat)
    requires m > amount
    ensures Roomy(Threshold(amount), amount, m)
  {
    assert |{0, 1, 2}| == 3;
  }

  lemma ThresholdStorable(amount: nat)
    ensures Storable(Threshold(amount))
  {
    var q := Threshold(amount);
    var reg: Registry := scid =>
      if scid == 2 then Funding(2, 1, amount + 10) else Funding(if scid == 3 then 2 else 1, 0, amount);
    assert Filed(reg, q.channels);
    assert q.channels[ChannelId(0, 1)].info.destination == 0 && q.channels[ChannelId(2, 1)].info.destination == 1;
    assert q.channels[ChannelId(3, 0)].info.destination == 2;
    StorableWith(q, reg);
  }

  /**
   * For every amount there is a graph with a usable route, and hops enough, on which the search
   * answers "no route": the cheaper channel brings in less than the next one's HTLC minimum.
   */
  lemma MinimumHidesRoute(amount: nat, r: Result<seq<RouteHop>, SearchError>)
    requires Answers(Threshold(amount), r)
    ensures var q := Threshold(amount);
            && WellFormed(q) && Storable(q) && q.maxHops >= |q.nodes| - 1
            && r == Err(NoRoute)
            && IsRoute(q, ThresholdPath(amount), q.src, q.dst) && Cost(ThresholdPath(amount), amount) == 10
  {
    var q := Threshold(amount);
    ThresholdRoomy(amount, amount + 1);
    ThresholdStorable(amount);
    hide Storable;
    var s :| Explains(q, s) && r == Outcome(q, s);
    ThresholdMissed(amount, s);
    ThresholdRoute(amount);
  }

  lemma ThresholdMissed(amount: nat, s: SearchState)
    requires Explains(Threshold(amount), s)
    ensures 2 !in s.depth
  {
    var q := Threshold(amount);
    if 2 in s.depth {
      assert TreeEdge(q, s, 2);
      assert s.distance[1] >= 1;
      assert TreeEdge(q, s, 1);
      ThresholdFree(amount, s);
    }
  }

  lemma ThresholdFree(amount: nat, s: SearchState)
    requires Explains(Threshold(amount), s) && 0 in s.expanded
    ensures s.distance[1] <= 0
  {
    hide Explains;
    FlatFee(0, 1, 0, 0, amount, 0, amount);
    assert s.distance[0] == 0 by { AtDestination(Threshold(amount), s); }
    RelaxedOver(Threshold(amount), s, Flat(0, 1, 0, 0, amount, 0));
  }

  lemma AtDestination(q: Query, s: SearchState)
    requires Explains(q, s)
    ensures q.dst in s.distance && s.distance[q.dst] == 0
  {
  }

  lemma ThresholdRoute(amount: nat)
    ensures var q := Threshold(amount);
            IsRoute(q, ThresholdPath(amount), q.src, q.dst) && Cost(ThresholdPath(amount), amount) == 10
  {
    var q := Threshold(amount);
    var last, dear := Flat(2, 2, 1, 0, amount + 10, amount + 1), Flat(1, 1, 0, 10, amount, 0);
    FlatFee(1, 1, 0, 10, amount, 0, amount);
    FlatFee(2, 2, 1, 0, amount + 10, amount + 1, amount + 10);
    assert IsRoute(q, [], 0, 0);
    IsRouteCons(q, dear, []);
    assert [dear] + [] == [dear];
    IsRouteCons(q, last, [dear]);
    assert [last] + [dear] == [last, dear];
  }
}
