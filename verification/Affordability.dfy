/** The retry loop on a fixed graph: it sends a payment exactly if the graph holds a route within the price. */
module Affordability {
  import opened Base
  import opened Channels
  import opened Routes
  import opened Store
  import opened Search
  import opened Optimality
  import opened Completeness
  import opened PaymentRoutes
  import opened Rebalancing

  /** What the outcome of the route code means for the attempt. A panic over an empty route counts as a failure. */
  function AnswerOf(o: Result<seq<RouteHop>, RouteError>): RouteAnswer {
    match o
    case Ok(_) => Found
    case Err(TooExpensive(_, _)) => TooDear
    case Err(NotFound(NoRoute)) => NoneFound
    case Err(_) => Failed
  }

  /** What a rebalance works with: the graph, our own node and channels, amount and price limit. */
  datatype Job = Job(net: Network, self: NodeId, out: ChannelState, last: ChannelState, amount: nat, maxPPM: nat)

  /** The search an attempt with `h` hops makes. */
  function QueryAt(t: Job, h: int): Query {
    InnerQuery(t.net, t.self, t.out, t.last, t.amount, h)
  }

  function OutcomeAt(t: Job, d: Result<seq<RouteHop>, SearchError>): Result<seq<RouteHop>, RouteError>
    requires t.amount > 0
  {
    RouteOutcome(d, t.out, t.last, t.amount, t.maxPPM)
  }

  /** An attempt with `h` hops that gets as far as asking for a route gets one the search may answer. */
  ghost predicate Searches(a: Attempt, t: Job, h: int)
    requires t.amount > 0
  {
    && !a.stopped && a.liquid && a.hashed
    && exists d :: Answers(QueryAt(t, h), d) && a.route == AnswerOf(OutcomeAt(t, d))
  }

  /** Every attempt searches the same graph; the search may answer differently each time. */
  ghost predicate OnGraph(world: (nat, int) -> Attempt, t: Job)
    requires t.amount > 0
  {
    forall k: nat, h: int {:trigger world(k, h)} :: Searches(world(k, h), t, h)
  }

  /** One of the answers to an attempt with `h` hops. */
  ghost function Pick(t: Job, h: int): (d: Result<seq<RouteHop>, SearchError>)
    ensures WellFormed(QueryAt(t, h)) ==> Answers(QueryAt(t, h), d)
  {
    if WellFormed(QueryAt(t, h)) then
      assert exists d :: Answers(QueryAt(t, h), d) by { var r := AnswerExists(QueryAt(t, h)); }
      var d :| Answers(QueryAt(t, h), d);
      d
    else Err(NoRoute)
  }

  /** Every graph can be met by the loop, whatever becomes of the payments. */
  lemma SomeWorld(t: Job, pay: nat -> PayAnswer) returns (world: (nat, int) -> Attempt)
    requires WellFormed(QueryAt(t, 0)) && t.amount > 0
    ensures OnGraph(world, t) && forall k: nat, h: int :: world(k, h).pay == pay(k)
  {
    world := (k: nat, h: int) =>
      Attempt(false, true, true, if t.amount > 0 then AnswerOf(OutcomeAt(t, Pick(t, h))) else Failed, pay(k));
    forall k: nat, h: int ensures Searches(world(k, h), t, h) {
      SameGraph(t, 0, h);
      hide Answers, OutcomeAt, WellFormed;
      assert Answers(QueryAt(t, h), Pick(t, h));
    }
  }

  /** The hop limit is no part of the graph. */
  lemma SameGraph(t: Job, g: int, h: int)
    requires WellFormed(QueryAt(t, g))
    ensures WellFormed(QueryAt(t, h))
  {
  }

  /** A usable path around our own node whose cycle is within the price limit. */
  ghost predicate Affordable(t: Job, p: seq<ChannelState>) {
    && IsInner(t.net, t.self, t.out, t.last, t.amount, p) && Cost(p, t.amount) < 2147483648
    && Cost(p + [t.last], t.amount) * 1000000 < (t.maxPPM + 1) * t.amount
  }

  /** What is found is affordable. */
  lemma FoundIsAffordable(a: Attempt, t: Job, h: int)
    requires t.amount > 0 && Searches(a, t, h) && a.route == Found
    ensures exists p :: Affordable(t, p)
  {
    hide Answers, RouteOutcome, Affordable, SimplePath, IsInner, IsRoute;
    var d :| Answers(QueryAt(t, h), d) && a.route == AnswerOf(OutcomeAt(t, d));
    AcceptedOutcome(d, t.out, t.last, t.amount, t.maxPPM);
    AcceptedIffCheap(d, t.out, t.last, t.amount, t.maxPPM);
    SearchSound(QueryAt(t, h), d);
    RouteIffInner(t.net, t.self, t.out, t.last, t.amount, h, ChannelsOf(d.value));
    IsAffordable(t, ChannelsOf(d.value));
  }

  lemma IsAffordable(t: Job, p: seq<ChannelState>)
    requires IsInner(t.net, t.self, t.out, t.last, t.amount, p) && Cost(p, t.amount) < 2147483648
    requires Cost(p + [t.last], t.amount) * 1000000 < (t.maxPPM + 1) * t.amount
    ensures Affordable(t, p)
  {
  }

  /** The ends of our two channels are different nodes the graph knows. */
  ghost predicate KnownEnds(t: Job) {
    && t.out.info.destination in t.net.inbound && t.last.info.source in t.net.inbound
    && t.out.info.destination != t.last.info.source && t.amount > 0
  }

  /** Between such ends the route code has no other answers than a route, none, and one too dear. */
  lemma NeverFails(a: Attempt, t: Job, h: int)
    requires KnownEnds(t) && Searches(a, t, h)
    ensures a.route != Failed
  {
    hide Answers, IsRoute, Usable;
    var d :| Answers(QueryAt(t, h), d) && a.route == AnswerOf(OutcomeAt(t, d));
    Known(QueryAt(t, h), d);
    if d.Ok? {
      SearchSound(QueryAt(t, h), d);
      assert ChannelsOf(d.value) != [];
    }
  }

  lemma Known(q: Query, d: Result<seq<RouteHop>, SearchError>)
    requires Answers(q, d) && q.src in q.nodes && q.dst in q.nodes
    ensures d != Err(NoSuchNode)
  {
  }

  /** Neither HTLC minimums nor the closing channel's fee stand in the way. */
  ghost predicate Plain(t: Job) {
    && WellFormed(QueryAt(t, 0)) && KnownEnds(t)
    && (forall id :: id in t.net.channels ==> t.net.channels[id].minHtlc <= t.amount)
    && ComputeFee(t.last.info, t.amount) == 0
  }

  /** With hops enough an affordable route is found, or one no dearer. */
  lemma DeepEnoughFinds(a: Attempt, t: Job, h: int, p: seq<ChannelState>)
    requires Plain(t) && Searches(a, t, h) && h >= |t.net.inbound.Keys| + 1 && Affordable(t, p)
    ensures a.route == Found
  {
    hide Answers, IsInner, IsRoute, Connects, Usable, ComputeFee, RouteOutcome, WellFormed;
    NeverFails(a, t, h);
    SameGraph(t, 0, h);
    var d :| Answers(QueryAt(t, h), d) && a.route == AnswerOf(OutcomeAt(t, d));
    InnerIsCheapest(t.net, t.self, t.out, t.last, t.amount, h, d);
    assert d.Ok?;
    EmptyFails(t, d);
    EnteringAppend(ChannelsOf(d.value), t.last, t.amount);
    EnteringAppend(p, t.last, t.amount);
    MulMonotone(Cost(ChannelsOf(d.value) + [t.last], t.amount), Cost(p + [t.last], t.amount), 1000000);
    AcceptedIffCheap(d, t.out, t.last, t.amount, t.maxPPM);
  }

  lemma EmptyFails(t: Job, d: Result<seq<RouteHop>, SearchError>)
    requires t.amount > 0 && d.Ok?
    ensures d.value == [] ==> AnswerOf(OutcomeAt(t, d)) == Failed
  {
  }

  lemma {:induction false} SentSome(world: (nat, int) -> Attempt, n: nat) returns (k: nat)
    requires Tallied(world, n).sent > 0
    ensures k < n && Sends(Met(world, k))
  {
    TallyNext(world, n - 1);
    if Sends(Met(world, n - 1)) { k := n - 1; } else { k := SentSome(world, n - 1); }
  }

  /** Whatever is sent goes over a route within the price limit. */
  lemma SentIsAffordable(world: (nat, int) -> Attempt, t: Job, n: nat)
    requires t.amount > 0 && OnGraph(world, t) && Tallied(world, n).sent > 0
    ensures exists p :: Affordable(t, p)
  {
    hide Searches, Affordable, Tallied;
    var k := SentSome(world, n);
    FoundIsAffordable(Met(world, k), t, 3 + Tallied(world, k).deepened);
  }

  /** Without a payment sent the loop goes on until the hops are used up, the last attempt having all of them. */
  lemma UnsentReachesLimit(world: (nat, int) -> Attempt, t: Job, attempts: int, maxHops: int, made: nat, ended: bool)
    requires KnownEnds(t) && OnGraph(world, t)
    requires attempts >= 1 && maxHops >= 3 && StopsAfter(world, attempts, maxHops, made, ended)
    requires Tallied(world, made).sent == 0
    ensures made > 0 && 3 + Tallied(world, made - 1).deepened >= maxHops && !Sends(Met(world, made - 1))
  {
    hide Searches, Ongoing, Tallied;
    if ended {
      TallyNext(world, made - 1);
      NeverFails(Met(world, made - 1), t, 3 + Tallied(world, made - 1).deepened);
      SearchesOn(Met(world, made - 1), t, 3 + Tallied(world, made - 1).deepened);
    } else {
      TallySplit(world, attempts, maxHops, made);
      FirstTally(world);
      TallyNext(world, made - 1);
      AddsAtMostOne(Tallied(world, made - 1), Met(world, made - 1));
    }
  }

  lemma FirstTally(world: (nat, int) -> Attempt)
    ensures Tallied(world, 0) == Tally(0, 0, 0)
  {
  }

  lemma AddsAtMostOne(t: Tally, a: Attempt)
    ensures Add(t, a).deepened <= t.deepened + 1
    ensures Sends(a) ==> Add(t, a).sent > 0
  {
  }

  /** An attempt that searches and does not fail sends or is followed by a deeper one. */
  lemma SearchesOn(a: Attempt, t: Job, h: int)
    requires t.amount > 0 && Searches(a, t, h) && a.route != Failed
    ensures Sends(a) || Continues(a)
  {
  }

  /**
   * With as many hops allowed as the graph can use, a free closing channel and no HTLC minimum
   * above the amount: the loop sends a payment exactly if the graph has an affordable path around
   * our own node, however the search chooses between equally cheap ones at each attempt.
   */
  lemma PaysIffAffordable(world: (nat, int) -> Attempt, t: Job, attempts: int, maxHops: int, made: nat, ended: bool)
    requires Plain(t) && OnGraph(world, t)
    requires attempts >= 1 && maxHops >= |t.net.inbound.Keys| + 1 && StopsAfter(world, attempts, maxHops, made, ended)
    ensures Tallied(world, made).sent > 0 <==> exists p :: Affordable(t, p)
  {
    hide Searches, Affordable, StopsAfter, Tallied, WellFormed;
    if Tallied(world, made).sent > 0 {
      SentIsAffordable(world, t, made);
    } else if p :| Affordable(t, p) {
      TwoNodes(t);
      UnsentReachesLimit(world, t, attempts, maxHops, made, ended);
      var a := Met(world, made - 1);
      DeepEnoughFinds(a, t, 3 + Tallied(world, made - 1).deepened, p);
      FoundSends(a, t, 3 + Tallied(world, made - 1).deepened);
      assert false;
    }
  }

  lemma FoundSends(a: Attempt, t: Job, h: int)
    requires t.amount > 0 && Searches(a, t, h) && a.route == Found
    ensures Sends(a)
  {
  }

  lemma TwoNodes(t: Job)
    requires KnownEnds(t)
    ensures |t.net.inbound.Keys| >= 2
  {
    SubsetSize({t.out.info.destination, t.last.info.source}, t.net.inbound.Keys);
  }
}
