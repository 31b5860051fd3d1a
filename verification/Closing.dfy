/**
 * Searched routes against what becomes of them: what the search checked for its own amounts, once
 * the closing channel makes the route carry more.
 */
module Closing {
  import opened Base
  import opened Channels
  import opened Routes
  import opened Search
  import opened Optimality
  import opened Store
  import opened StoredGraphs
  import opened Completeness
  import opened PaymentRoutes

  // ---------------------------------------------------------------- a graph of one channel

  /** The other direction of a channel, believed empty. */
  function Back(c: ChannelState): ChannelState {
    var g := c.info.(source := c.info.destination, destination := c.info.source);
    ChannelState(g, 0, 0, g.htlcMax, g.htlcMin)
  }

  lemma BackApart(c: ChannelState)
    requires c.info.source != c.info.destination
    ensures IdOf(Back(c).info) == Opposite(IdOf(c.info)) != IdOf(c.info) && KeepsLimits(Back(c))
  {
    DirectionsDiffer(c.info.source, c.info.destination);
  }

  /** A search along `c`, in a graph of that channel alone, with its two directions. */
  function Lone(c: ChannelState, amount: nat, exclude: set<NodeId>): Query {
    Query(map[IdOf(Back(c).info) := Back(c), IdOf(c.info) := c], {c.info.source, c.info.destination},
          c.info.source, c.info.destination, amount, exclude, 1)
  }

  lemma LoneStorable(c: ChannelState, amount: nat, exclude: set<NodeId>)
    requires c.info.source != c.info.destination && KeepsLimits(c)
    ensures Storable(Lone(c, amount, exclude))
  {
    var q := Lone(c, amount, exclude);
    var g := c.info;
    var reg: Registry := _ => Funding(g.source, g.destination, g.satoshis);
    BackApart(c);
    assert q.channels[IdOf(Back(c).info)].info.destination == g.source;
    assert q.channels[IdOf(g)].info.destination == g.destination;
    StorableWith(q, reg);
  }

  /** Every answer is the route over that channel, if it can forward the amount. */
  lemma LoneAnswer(c: ChannelState, amount: nat, exclude: set<NodeId>) returns (r: Result<seq<RouteHop>, SearchError>)
    requires c.info.source != c.info.destination && c.info.source !in exclude && KeepsLimits(c)
    requires CanForward(c, amount) && ComputeFee(c.info, amount) < MAX_DISTANCE
    ensures Storable(Lone(c, amount, exclude))
    ensures Answers(Lone(c, amount, exclude), r) && r == Ok(SearchHops([c], amount)) && ChannelsOf(r.value) == [c]
  {
    hide Lone, Storable, Answers, ComputeFee, CanForward, IdOf, Back, KeepsLimits, WellFormed;
    var q := Lone(c, amount, exclude);
    LoneStorable(c, amount, exclude);
    assert c.minHtlc <= amount by { MinimumKept(c, amount); }
    LoneRoomy(c, amount, exclude);
    r := AnswerExists(q);
    LoneRoute(c, amount, exclude);
    CheapestWithEnoughHops(q, r);
    SearchSound(q, r);
    OnlyChannel(q, c, Back(c), ChannelsOf(r.value));
  }

  lemma MinimumKept(c: ChannelState, amount: nat)
    requires CanForward(c, amount)
    ensures c.minHtlc <= amount
  {
  }

  /** The graph of `c` as the theorems about searches need it. */
  lemma LoneRoomy(c: ChannelState, amount: nat, exclude: set<NodeId>)
    requires c.info.source != c.info.destination && KeepsLimits(c) && c.minHtlc <= amount
    ensures var q := Lone(c, amount, exclude);
            && Roomy(q, amount, amount) && Back(c).info.source != q.src
            && q.src == c.info.source && q.dst == c.info.destination && q.exclude == exclude && q.maxHops == 1
            && (forall id :: id in q.channels ==> q.channels[id] == c || q.channels[id] == Back(c))
            && IdOf(c.info) in q.channels && q.channels[IdOf(c.info)] == c
  {
    BackApart(c);
  }

  lemma LoneRoute(c: ChannelState, amount: nat, exclude: set<NodeId>)
    requires c.info.source != c.info.destination && c.info.source !in exclude && KeepsLimits(c) && CanForward(c, amount)
    ensures var q := Lone(c, amount, exclude);
            IsRoute(q, [c], q.src, q.dst) && Cost([c], q.amount) == ComputeFee(c.info, amount)
  {
    LoneRoomy(c, amount, exclude);
    var q := Lone(c, amount, exclude);
    assert IsRoute(q, [], q.dst, q.dst);
    hide ComputeFee, CanForward, IdOf, Back, Lone, WellFormed;
    IsRouteCons(q, c, []);
    assert [c] + [] == [c];
  }

  lemma OnlyChannel(q: Query, c: ChannelState, back: ChannelState, p: seq<ChannelState>)
    requires q.src != q.dst && IsRoute(q, p, q.src, q.dst) && |p| <= 1 && back.info.source != q.src
    requires forall id :: id in q.channels ==> q.channels[id] == c || q.channels[id] == back
    ensures p == [c]
  {
    assert p != [];
    assert p[0] == c;
  }

  // ---------------------------------------------------------------- liquidity and the stored amount

  /** The amount that leaves the channel of hop `i`. */
  function Leaving(hops: seq<RouteHop>, amount: nat, i: nat): nat
    requires i < |hops|
  {
    if i + 1 < |hops| then hops[i + 1].amount else amount
  }

  /** Hop `i` of an answer is over a channel with gossip `g` that `leaving` msat leave; limits are those of gossip. */
  ghost predicate Crosses(q: Query, r: Result<seq<RouteHop>, SearchError>, i: nat, g: Gossip, leaving: nat) {
    && GossipLimits(q.channels) && Answers(q, r) && r.Ok? && i < |r.value|
    && r.value[i].channel.info == g && Leaving(r.value, q.amount, i) == leaving
  }

  /** The belief about the channel covers the amount stored in its hop. */
  predicate Covers(hop: RouteHop) {
    hop.channel.liquidity >= hop.amount
  }

  /** What is known of a crossed channel. */
  lemma CrossedHop(q: Query, r: Result<seq<RouteHop>, SearchError>, i: nat, g: Gossip, leaving: nat)
    requires Crosses(q, r, i, g, leaving)
    ensures g.active && r.value[i].channel.liquidity >= leaving && r.value[i].amount == leaving + ComputeFee(g, leaving)
    ensures g.source != g.destination && ComputeFee(g, leaving) < MAX_DISTANCE && g.htlcMin <= leaving <= g.htlcMax
  {
    SearchSound(q, r);
    var p := ChannelsOf(r.value);
    assert q.channels[IdOf(p[i].info)] == p[i];
    assert KeepsLimits(p[i]);
    hide ComputeFee, Answers, IsRoute, SimplePath, SearchHops, Entering, GossipLimits;
    StoredHops(p, q.amount, i);
    SearchHopsAt(p, q.amount, i);
    if i + 1 < |p| { SearchHopsAt(p, q.amount, i + 1); }
    EnteringGrows(p, q.amount, i);
    NoLoop(p, q.src, q.dst, i);
  }

  lemma {:induction false} EnteringGrows(p: seq<ChannelState>, amount: nat, i: nat)
    requires i <= |p|
    ensures Entering(p, amount) >= Entering(p[i..], amount)
  {
    if i > 0 {
      EnteringGrows(p[1..], amount, i - 1);
      assert p[1..][i - 1..] == p[i..];
    } else {
      assert p[0..] == p;
    }
  }

  /** No channel of a simple path leads back to the node it starts from. */
  lemma {:induction false} NoLoop(p: seq<ChannelState>, src: NodeId, dst: NodeId, i: nat)
    requires SimplePath(p, src, dst) && i < |p|
    ensures p[i].info.source != p[i].info.destination
  {
    SimpleTail(p, src, dst);
    if i > 0 {
      NoLoop(p[1..], p[0].info.destination, dst, i - 1);
    } else if |p| > 1 {
      assert Sources(p)[0] == p[0].info.source && Sources(p)[1] == p[1].info.source;
    } else {
      assert Sources(p)[0] == p[0].info.source;
      assert p[1..] == [];
    }
  }

  lemma SimpleTail(p: seq<ChannelState>, src: NodeId, dst: NodeId)
    requires SimplePath(p, src, dst) && p != []
    ensures SimplePath(p[1..], p[0].info.destination, dst)
  {
    assert Sources(p[1..]) == Sources(p)[1..];
  }

  /** Some search goes over a channel with gossip `g` that `leaving` msat leave. */
  predicate Crossable(g: Gossip, leaving: nat) {
    && g.active && g.source != g.destination && g.htlcMin <= leaving <= g.htlcMax
    && ComputeFee(g, leaving) < MAX_DISTANCE
  }

  /**
   * The repository's test also expects the liquidity to cover the amount stored in the hop
   * itself. Over all graphs, channels with gossip `g` that the search lets `leaving` msat leave
   * meet that exactly if they charge nothing, or if no search goes over them at all; otherwise
   * they fail it on a graph that the store can hold.
   */
  lemma LiquidityCoversStoredIff(g: Gossip, leaving: nat)
    ensures (forall q, r, i: nat :: Crosses(q, r, i, g, leaving) ==> Covers(r.value[i]))
       <==> ComputeFee(g, leaving) == 0 || !Crossable(g, leaving)
    ensures ComputeFee(g, leaving) > 0 && Crossable(g, leaving) ==>
              exists q, r :: Storable(q) && Crosses(q, r, 0, g, leaving) && !Covers(r.value[0])
  {
    hide ComputeFee, Answers, Storable;
    if ComputeFee(g, leaving) == 0 || !Crossable(g, leaving) {
      forall q, r, i: nat | Crosses(q, r, i, g, leaving) ensures Covers(r.value[i]) {
        CrossedHop(q, r, i, g, leaving);
      }
    } else {
      var c := ChannelState(g, leaving, 0, g.htlcMax, g.htlcMin);
      var r := LoneAnswer(c, leaving, {});
      LoneHop(c, leaving);
      BackApart(c);
      assert Crosses(Lone(c, leaving, {}), r, 0, g, leaving) && !Covers(r.value[0]);
    }
  }

  lemma LoneHop(c: ChannelState, amount: nat)
    ensures SearchHops([c], amount)[0].channel == c
    ensures SearchHops([c], amount)[0].amount == amount + ComputeFee(c.info, amount)
  {
    hide ComputeFee;
    assert [c][1..] == [];
    assert Entering([c][1..], amount) == amount;
    assert Entering([c], amount) == amount + ComputeFee(c.info, amount);
  }

  // ---------------------------------------------------------------- payable routes

  /** `r` answers a search for the inner part of a cycle that leaves our node by `first` and comes back by `last`. */
  ghost predicate Inner(q: Query, r: Result<seq<RouteHop>, SearchError>, first: ChannelState, last: ChannelState,
                        amount: nat) {
    && q.src == first.info.destination && q.dst == last.info.source && q.amount == amount
    && q.exclude == {first.info.source} && Answers(q, r) && r.Ok?
  }

  /**
   * The search checks inner hops without the closing channel's fee. Over all graphs, every route
   * it answers stays payable exactly if the closing channel charges nothing for the amount, or
   * there is nothing to search for between our two channels; otherwise one fails to on a graph that
   * the store can hold.
   */
  lemma AlwaysPayableIffClosingIsFree(first: ChannelState, last: ChannelState, amount: nat, delay: nat)
    ensures (forall q, r :: Inner(q, r, first, last, amount) ==>
               Payable(ChannelsOf(r.value), first, last, amount, delay))
       <==> || ComputeFee(last.info, amount) == 0
            || first.info.destination == last.info.source || first.info.destination == first.info.source
    ensures && ComputeFee(last.info, amount) > 0
            && first.info.destination != last.info.source && first.info.destination != first.info.source ==>
              exists q, r :: && Storable(q) && Inner(q, r, first, last, amount)
                             && !Payable(ChannelsOf(r.value), first, last, amount, delay)
  {
    hide ComputeFee, Payable, Answers, ChannelsOf, Storable;
    if || ComputeFee(last.info, amount) == 0
       || first.info.destination == last.info.source || first.info.destination == first.info.source
    {
      forall q, r | Inner(q, r, first, last, amount) ensures Payable(ChannelsOf(r.value), first, last, amount, delay) {
        StaysPayable(q, r, first, last, amount, delay);
      }
    } else {
      var c := Flat(0, first.info.destination, last.info.source, 0, amount, 0);
      FlatFee(0, first.info.destination, last.info.source, 0, amount, 0, amount);
      var r := LoneAnswer(c, amount, {first.info.source});
      PayableIffUsable([c], first, last, amount, delay);
      JustEnough(c, amount, amount + ComputeFee(last.info, amount));
      assert Inner(Lone(c, amount, {first.info.source}), r, first, last, amount);
    }
  }

  lemma StaysPayable(q: Query, r: Result<seq<RouteHop>, SearchError>, first: ChannelState, last: ChannelState,
                     amount: nat, delay: nat)
    requires Inner(q, r, first, last, amount)
    requires || ComputeFee(last.info, amount) == 0
             || first.info.destination == last.info.source || first.info.destination == first.info.source
    ensures Payable(ChannelsOf(r.value), first, last, amount, delay)
  {
    SearchSound(q, r);
    var p := ChannelsOf(r.value);
    PayableIffUsable(p, first, last, amount, delay);
    if ComputeFee(last.info, amount) != 0 && p != [] {
      StartsAtSource(q, p);
      assert false;
    }
  }

  /** A searched path between different nodes, and no other, starts at its source, which then is not excluded. */
  lemma StartsAtSource(q: Query, p: seq<ChannelState>)
    requires SimplePath(p, q.src, q.dst) && IsRoute(q, p, q.src, q.dst) && p != []
    ensures q.src != q.dst && q.src !in q.exclude
  {
    assert p[0].info.source == q.src;
    FirstSource(p);
  }

  /** A channel whose liquidity is just the amount forwards nothing larger. */
  lemma JustEnough(c: ChannelState, amount: nat, total: nat)
    requires c.liquidity == amount < total
    ensures !Routes.Usable([c], total)
  {
    assert [c][1..] == [];
  }

  // ---------------------------------------------------------------- the cheapest cycle

  /**
   * `r` answers, with hops enough and no HTLC minimum in the way, a search for the inner part of a
   * cycle closed by `last`.
   */
  ghost predicate Closable(q: Query, r: Result<seq<RouteHop>, SearchError>, last: ChannelState, amount: nat) {
    && q.dst == last.info.source && q.exclude == {last.info.destination} && Roomy(q, amount, amount)
    && Answers(q, r) && r.Ok? && Routes.Usable(ChannelsOf(r.value), amount + ComputeFee(last.info, amount))
  }

  /** No other path whose channels can carry the closing fee as well makes a cheaper cycle. */
  ghost predicate CheapestClosed(q: Query, r: Result<seq<RouteHop>, SearchError>, last: ChannelState,
                                 p: seq<ChannelState>)
  {
    r.Ok? &&
    (IsRoute(q, p, q.src, q.dst) && Routes.Usable(p, q.amount + ComputeFee(last.info, q.amount)) ==>
       Cost(ChannelsOf(r.value) + [last], q.amount) <= Cost(p + [last], q.amount))
  }

  ghost predicate AlwaysCheapest(last: ChannelState, amount: nat) {
    forall q, r, p :: Closable(q, r, last, amount) ==> CheapestClosed(q, r, last, p)
  }

  /** On some graph that the store can hold an answer makes a dearer cycle than another path would. */
  ghost predicate DearerOnStored(last: ChannelState, amount: nat) {
    exists q, r, p :: Storable(q) && Closable(q, r, last, amount) && !CheapestClosed(q, r, last, p)
  }

  /** Amounts up to about ten bitcoin, for which the counterexample stays below the search's infinity. */
  predicate BelowTenBitcoin(amount: nat) {
    2 * (amount / 1000) + 2001 < MAX_DISTANCE
  }

  /**
   * The cheapest inner route need not make the cheapest cycle: the search compares routes by what
   * they cost for the amount alone, and all of them carry the closing fee as well. Over all graphs
   * the answer makes the cheapest payable cycle exactly if closing is free, at least for amounts
   * up to about ten bitcoin.
   */
  lemma CheapestCycleIffClosingIsFree(last: ChannelState, amount: nat)
    ensures ComputeFee(last.info, amount) == 0 ==> AlwaysCheapest(last, amount)
    ensures ComputeFee(last.info, amount) > 0 && BelowTenBitcoin(amount) ==>
              !AlwaysCheapest(last, amount) && DearerOnStored(last, amount)
  {
    hide ComputeFee, CheapestClosed, Closable, Storable;
    if ComputeFee(last.info, amount) == 0 {
      forall q, r, p | Closable(q, r, last, amount) ensures CheapestClosed(q, r, last, p) {
        FreeClosingKeepsOrder(q, r, last, amount, p);
      }
    } else if BelowTenBitcoin(amount) {
      var q, r, p := DearerCycle(last, amount);
    }
  }

  lemma FreeClosingKeepsOrder(q: Query, r: Result<seq<RouteHop>, SearchError>, last: ChannelState, amount: nat,
                              p: seq<ChannelState>)
    requires Closable(q, r, last, amount) && ComputeFee(last.info, amount) == 0
    ensures CheapestClosed(q, r, last, p)
  {
    hide Answers, IsRoute, ComputeFee, Usable;
    CheapestWithEnoughHops(q, r);
    EnteringAppend(ChannelsOf(r.value), last, amount);
    EnteringAppend(p, last, amount);
  }

  /**
   * The counterexample. Two hops for 2 msat a whole satoshi and a base fee that brings the amount
   * to just below the next satoshi, and one hop that is 1 msat dearer: any msat more makes the
   * two hops the dearer way, by at least 1 msat.
   */
  datatype Fork = Fork(step: ChannelState, base: ChannelState, flat: ChannelState)

  function FillUp(amount: nat): nat {
    999 - amount % 1000
  }

  function ForkRoutes(s: NodeId, x: NodeId, d: NodeId, amount: nat, room: nat): Fork {
    Fork(
      ChannelState(Gossip(0, s, x, room, true, 0, 0, 2000, 0, 0, room), room, 0, room, 0),
      Flat(1, x, d, FillUp(amount), room, 0),
      Flat(2, s, d, FillUp(amount) + 2 * ((amount + FillUp(amount)) / 1000) + 1, room, 0))
  }

  /** The fee of the first channel: 2 msat a whole satoshi. */
  lemma StepFee(g: Gossip, m: nat, amount: nat)
    requires g.baseFee == 0 && g.ppm == 2000
    ensures amount / 1000 == m ==> ComputeFee(g, amount) == 2 * m
    ensures amount / 1000 > m ==> ComputeFee(g, amount) >= 2 * m + 2
  {
    assert ComputeFee(g, amount) == 2 * (amount / 1000);
  }

  lemma PairEntering(a: ChannelState, b: ChannelState, amount: nat)
    ensures var near := amount + ComputeFee(b.info, amount);
            Entering([a, b], amount) == near + ComputeFee(a.info, near)
    ensures var near := amount + ComputeFee(b.info, amount);
            CanForward(b, amount) && CanForward(a, near) ==> Routes.Usable([a, b], amount)
  {
    hide ComputeFee, CanForward;
    assert [a, b][1..] == [b];
    OneEntering(b, amount);
  }

  lemma OneEntering(c: ChannelState, amount: nat)
    ensures Entering([c], amount) == amount + ComputeFee(c.info, amount)
    ensures CanForward(c, amount) ==> Routes.Usable([c], amount)
  {
    hide ComputeFee, CanForward;
    assert [c][1..] == [];
    assert Entering([c][1..], amount) == amount;
  }

  /** What the two routes cost for the amount, and for any larger one. */
  lemma ForkCosts(t: Fork, s: NodeId, x: NodeId, d: NodeId, amount: nat, room: nat, carried: nat)
    requires t == ForkRoutes(s, x, d, amount, room) && carried >= amount
    ensures var flat := FillUp(amount) + 2 * ((amount + FillUp(amount)) / 1000) + 1;
            && Entering([t.flat], carried) == carried + flat
            && (carried == amount ==> Entering([t.step, t.base], carried) == carried + flat - 1)
            && (carried > amount ==> Entering([t.step, t.base], carried) > carried + flat)
    ensures room >= carried + 999 ==> Routes.Usable([t.flat], carried) && Routes.Usable([t.step, t.base], carried)
  {
    var b := FillUp(amount);
    var m := (amount + b) / 1000;
    FlatFee(1, x, d, b, room, 0, carried);
    FlatFee(2, s, d, b + 2 * m + 1, room, 0, carried);
    StepFee(t.step.info, m, carried + b);
    hide ComputeFee;
    assert amount + b == 1000 * m + 999;
    PairEntering(t.step, t.base, carried);
    OneEntering(t.flat, carried);
  }

  function ForkQuery(t: Fork, s: NodeId, x: NodeId, d: NodeId, amount: nat, self: NodeId): Query {
    Query(map[IdOf(t.step.info) := t.step, IdOf(t.base.info) := t.base, IdOf(t.flat.info) := t.flat,
              IdOf(Back(t.flat).info) := Back(t.flat)],
          {s, x, d}, s, d, amount, {self}, 2)
  }

  ghost predicate Apart(s: NodeId, x: NodeId, d: NodeId, self: NodeId) {
    s != x && s != d && x != d && s != self && x != self
  }

  lemma ForkRoomy(t: Fork, s: NodeId, x: NodeId, d: NodeId, amount: nat, room: nat, self: NodeId)
    requires t == ForkRoutes(s, x, d, amount, room) && Apart(s, x, d, self)
    ensures var q := ForkQuery(t, s, x, d, amount, self);
            && Roomy(q, amount, amount)
            && (forall id :: id in q.channels ==> q.channels[id] in {t.step, t.base, t.flat, Back(t.flat)})
            && (forall c :: c in {t.step, t.base, t.flat} ==>
                  IdOf(c.info) in q.channels && q.channels[IdOf(c.info)] == c)
  {
    hide FillUp;
    BackApart(t.flat);
    assert |{s, x, d}| == 3;
  }

  lemma ForkStorable(t: Fork, s: NodeId, x: NodeId, d: NodeId, amount: nat, room: nat, self: NodeId)
    requires t == ForkRoutes(s, x, d, amount, room) && Apart(s, x, d, self)
    ensures Storable(ForkQuery(t, s, x, d, amount, self))
  {
    hide FillUp, IdOf;
    var q := ForkQuery(t, s, x, d, amount, self);
    var reg: Registry := scid => Funding(if scid == 1 then x else s, if scid == 0 then x else d, room);
    ForkRoomy(t, s, x, d, amount, room, self);
    ForkIds(t, s, x, d, amount, room, self);
    assert IdOf(t.step.info) in q.channels && IdOf(t.base.info) in q.channels && IdOf(Back(t.flat).info) in q.channels;
    assert forall id :: id in q.channels ==> q.channels[id].info.destination in q.nodes;
    StorableWith(q, reg);
  }

  /** The channels are filed under their own ids. */
  lemma ForkIds(t: Fork, s: NodeId, x: NodeId, d: NodeId, amount: nat, room: nat, self: NodeId)
    requires t == ForkRoutes(s, x, d, amount, room) && Apart(s, x, d, self)
    ensures var q := ForkQuery(t, s, x, d, amount, self);
            && (forall id :: id in q.channels ==> IdOf(q.channels[id].info) == id)
            && IdOf(Back(t.flat).info) in q.channels && q.channels[IdOf(Back(t.flat).info)] == Back(t.flat)
  {
    hide FillUp;
    BackApart(t.flat);
  }

  /** Both routes are routes of the graph; a simple path of the graph is one of them. */
  lemma ForkPaths(t: Fork, s: NodeId, x: NodeId, d: NodeId, amount: nat, room: nat, self: NodeId)
    requires t == ForkRoutes(s, x, d, amount, room) && Apart(s, x, d, self) && room >= amount + 999
    ensures var q := ForkQuery(t, s, x, d, amount, self);
            && IsRoute(q, [t.step, t.base], s, d) && IsRoute(q, [t.flat], s, d)
            && (forall p :: IsRoute(q, p, s, d) && SimplePath(p, s, d) ==> p == [t.step, t.base] || p == [t.flat])
  {
    var q := ForkQuery(t, s, x, d, amount, self);
    ForkRoomy(t, s, x, d, amount, room, self);
    ForkCosts(t, s, x, d, amount, room, amount);
    assert t.step.info.source == t.flat.info.source == s && t.base.info.source == t.step.info.destination == x;
    assert t.base.info.destination == t.flat.info.destination == d;
    hide FillUp, ComputeFee, CanForward, IdOf, ForkQuery, ForkRoutes, Back;
    QueryEnds(t, s, x, d, amount, self);
    assert [t.step, t.base][1..] == [t.base] && [t.base][1..] == [] && [t.flat][1..] == [];
    assert Connects([t.base], x, d);
    forall p | IsRoute(q, p, s, d) && SimplePath(p, s, d) ensures p == [t.step, t.base] || p == [t.flat] {
      OneOfTwo(q, t, s, x, d, p);
    }
  }

  lemma QueryEnds(t: Fork, s: NodeId, x: NodeId, d: NodeId, amount: nat, self: NodeId)
    ensures var q := ForkQuery(t, s, x, d, amount, self);
            q.dst == d && q.src == s && q.exclude == {self} && q.amount == amount
  {
  }

  lemma OneOfTwo(q: Query, t: Fork, s: NodeId, x: NodeId, d: NodeId, p: seq<ChannelState>)
    requires IsRoute(q, p, s, d) && SimplePath(p, s, d) && s != d && x != d && s != x
    requires forall id :: id in q.channels ==> q.channels[id] in {t.step, t.base, t.flat, Back(t.flat)}
    requires t.step.info.source == t.flat.info.source == s && t.base.info.source == t.step.info.destination == x
    requires t.base.info.destination == t.flat.info.destination == d
    ensures p == [t.step, t.base] || p == [t.flat]
  {
    hide Usable, IdOf;
    assert p != [];
    assert Back(t.flat).info.source == d;
    hide Back;
    assert p[0] in {t.step, t.base, t.flat};
    SimpleTail(p, s, d);
    if p[0] == t.flat {
      RoundTripEmpty(p[1..], d);
      assert p == [t.flat] + p[1..];
    } else {
      assert p[1..] != [];
      assert p[1] in {t.step, t.base, t.flat};
      assert p[1..][0] == p[1];
      SimpleTail(p[1..], x, d);
      assert p[1..][1..] == p[2..];
      RoundTripEmpty(p[2..], d);
      assert p == [t.step, t.base] + p[2..];
    }
  }

  lemma DearerCycle(last: ChannelState, amount: nat)
    returns (q: Query, r: Result<seq<RouteHop>, SearchError>, p: seq<ChannelState>)
    requires ComputeFee(last.info, amount) > 0 && BelowTenBitcoin(amount)
    ensures Storable(q) && Closable(q, r, last, amount) && !CheapestClosed(q, r, last, p)
  {
    hide Storable, ComputeFee, IsRoute, Connects, Answers, Usable, FillUp, ForkRoutes, ForkQuery;
    var self, d := last.info.destination, last.info.source;
    var s := if d > self then d + 1 else self + 1;
    var x := s + 1;
    var total := amount + ComputeFee(last.info, amount);
    var t := ForkRoutes(s, x, d, amount, total + 999);
    q, p := ForkQuery(t, s, x, d, amount, self), [t.flat];
    ForkRoomy(t, s, x, d, amount, total + 999, self);
    ForkPaths(t, s, x, d, amount, total + 999, self);
    ForkStorable(t, s, x, d, amount, total + 999, self);
    ForkCosts(t, s, x, d, amount, total + 999, amount);
    ForkCosts(t, s, x, d, amount, total + 999, total);
    QueryEnds(t, s, x, d, amount, self);
    BelowInfinity(amount);
    r := AnswerExists(q);
    CheapestWithEnoughHops(q, r);
    assert IsRoute(q, p, q.src, q.dst) && Cost(p, q.amount) < MAX_DISTANCE;
    assert r.Ok?;
    SearchSound(q, r);
    assert ChannelsOf(r.value) == [t.step, t.base];
    EnteringAppend([t.step, t.base], last, amount);
    EnteringAppend([t.flat], last, amount);
  }

  lemma BelowInfinity(amount: nat)
    requires BelowTenBitcoin(amount)
    ensures FillUp(amount) + 2 * ((amount + FillUp(amount)) / 1000) + 1 < MAX_DISTANCE
  {
  }
}
