/** One rebalance: building the circular route, and the retry loop around payment attempts. */
module Rebalancing {
  import opened Base
  import opened Channels
  import opened Fees
  import opened Routes
  import opened Store
  import opened StoredGraphs
  import opened Graphs
  import opened Search
  import opened Optimality
  import opened Completeness
  import opened Pathfinder
  import opened PaymentRoutes

  const DEFAULT_AMOUNT: nat := 200000000
  const DEFAULT_MAXPPM: nat := 10
  const DEFAULT_ATTEMPTS: int := 1
  const DEFAULT_MAXHOPS: int := 8

  /** `EmptyRoute` stands for the index panic on a route without hops. */
  datatype RouteError = NotFound(e: SearchError) | EmptyRoute | TooExpensive(feePPM: nat, maxPPM: nat)

  /** The search for the inner part of the route: our own node excluded, two hops kept back. */
  function InnerQuery(net: Network, self: NodeId, out: ChannelState, last: ChannelState, amount: nat,
                      maxHops: int): Query {
    QueryOf(net, out.info.destination, last.info.source, amount, {self}, maxHops - 2)
  }

  /** What becomes of a search answer: the route is closed with our own channels and its price checked. */
  function RouteOutcome(d: Result<seq<RouteHop>, SearchError>, out: ChannelState, last: ChannelState, amount: nat,
                        maxPPM: nat)
    : Result<seq<RouteHop>, RouteError>
    requires amount > 0
  {
    match d
    case Err(e) => Err(NotFound(e))
    case Ok(inner) =>
      if inner == [] then Err(EmptyRoute)
      else
        var hops := CarriedHops([out] + ChannelsOf(inner) + [last], amount, INITIAL_DELAY);
        var fee := Cost(ChannelsOf(inner) + [last], amount);
        var ppm := PartsPerMillion(fee, amount);
        if ppm > maxPPM then Err(TooExpensive(ppm, maxPPM)) else Ok(hops)
  }

  /** A usable path of the graph between the ends of our two channels that does not lead through our own node. */
  ghost predicate IsInner(net: Network, self: NodeId, out: ChannelState, last: ChannelState, amount: nat,
                          p: seq<ChannelState>) {
    && Connects(p, out.info.destination, last.info.source) && Usable(p, amount)
    && forall i {:trigger p[i]} :: 0 <= i < |p| ==>
         && IdOf(p[i].info) in net.channels && net.channels[IdOf(p[i].info)] == p[i]
         && p[i].info.source != self
  }

  /** The routes the search looks for are these paths. */
  lemma RouteIffInner(net: Network, self: NodeId, out: ChannelState, last: ChannelState, amount: nat, maxHops: int,
                      p: seq<ChannelState>)
    ensures var q := InnerQuery(net, self, out, last, amount, maxHops);
            IsRoute(q, p, q.src, q.dst) <==> IsInner(net, self, out, last, amount, p)
  {
    hide Connects, Usable, IdOf;
  }

  /** Both channels are our own, the second one coming in from another node. */
  predicate OwnChannels(self: NodeId, out: ChannelState, last: ChannelState) {
    out.info.source == self && last.info.destination == self && last.info.source != self
  }

  /**
   * A simple cycle over our two channels and a path of the graph, of 3 to `maxHops` channels, whose hops
   * carry what its channels require, 144 blocks at the end, and whose fee is below one ppm more than
   * the limit.
   */
  ghost predicate IsCheapCycle(net: Network, self: NodeId, out: ChannelState, last: ChannelState, amount: nat,
                               maxPPM: nat, maxHops: int, hops: seq<RouteHop>) {
    var p := ChannelsOf(hops);
    && hops == CarriedHops(p, amount, 144)
    && Connects(p, self, self) && Distinct(Sources(p)) && 3 <= |p| <= maxHops
    && p[0] == out && p[|p| - 1] == last && IsInner(net, self, out, last, amount, p[1..|p| - 1])
    && (hops[0].amount - amount) * 1000000 < (maxPPM + 1) * amount
  }

  class Rebalance {
    const outChannel: ChannelState
    const inChannel: ChannelState
    var amount: nat
    var maxPPM: nat
    var attempts: int
    var maxHops: int

    constructor (outChannel: ChannelState, inChannel: ChannelState, amount: nat, maxPPM: nat, attempts: int,
                 maxHops: int)
      ensures this.outChannel == outChannel && this.inChannel == inChannel && this.amount == amount
      ensures this.maxPPM == maxPPM && this.attempts == attempts && this.maxHops == maxHops
    {
      this.outChannel, this.inChannel, this.amount := outChannel, inChannel, amount;
      this.maxPPM, this.attempts, this.maxHops := maxPPM, attempts, maxHops;
    }

    /** After the defaults no later division is by zero and at least one attempt is allowed. */
    method SetDefaults()
      modifies this
      ensures amount > 0 && maxPPM > 0 && attempts >= 1 && maxHops >= 1
      ensures 0 < old(amount) && old(amount) * 1000 < UINT64 ==> amount == old(amount) * 1000
      ensures amount == if old(amount) * 1000 % UINT64 == 0 then 200000000 else old(amount) * 1000 % UINT64
      ensures maxPPM == if old(maxPPM) == 0 then 10 else old(maxPPM)
      ensures attempts == if old(attempts) <= 0 then 1 else old(attempts)
      ensures maxHops == if old(maxHops) <= 0 then 8 else old(maxHops)
    {
      amount := amount * 1000 % UINT64;
      if amount == 0 { amount := DEFAULT_AMOUNT; }
      if maxPPM == 0 { maxPPM := DEFAULT_MAXPPM; }
      if attempts <= 0 { attempts := DEFAULT_ATTEMPTS; }
      if maxHops <= 0 { maxHops := DEFAULT_MAXHOPS; }
    }

    /** The circular route over the cheapest inner part found. */
    method GetRoute(g: Graph, self: NodeId,
                    hopLimit: int) returns (r: Result<Route, RouteError>, ghost d: Result<seq<RouteHop>, SearchError>)
      requires g.Keyed() && Agrees(g.reg, g.Net()) && amount > 0
      ensures Answers(InnerQuery(g.Net(), self, outChannel, inChannel, amount, hopLimit), d)
      ensures r.Ok? ==> r.value.amount == amount
      ensures r.Ok? ==> Ok(r.value.hops) == RouteOutcome(d, outChannel, inChannel, amount, maxPPM)
      ensures r.Err? ==> Err(r.error) == RouteOutcome(d, outChannel, inChannel, amount, maxPPM)
      ensures r.Ok? && OwnChannels(self, outChannel, inChannel) ==>
                IsCheapCycle(g.Net(), self, outChannel, inChannel, amount, maxPPM, hopLimit, r.value.hops)
    {
      hide Answers, Agrees, CarriedHops, Graph.Keyed, IsCheapCycle;
      var src, dst := outChannel.info.destination, inChannel.info.source;
      var found := Dijkstra(g, src, dst, amount, {self}, hopLimit - 2);
      d := found;
      if found.Err? { return Err(NotFound(found.error)), d; }
      var route := new Route(src, dst, amount, found.value);
      if |route.hops| == 0 { return Err(EmptyRoute), d; }
      route.Prepend(outChannel);
      route.Append(inChannel);
      ClosedRoute(outChannel, found.value, inChannel, amount, route.hops);
      var ppm := PartsPerMillion(route.Fee(), amount);
      if ppm > maxPPM { return Err(TooExpensive(ppm, maxPPM)), d; }
      if OwnChannels(self, outChannel, inChannel) {
        AcceptedIsCheapCycle(g.Net(), self, outChannel, inChannel, amount, maxPPM, hopLimit, d);
      }
      return Ok(route), d;
    }
  }

  /** The closed route's hops, and its fee as the cost of all channels but our own first one. */
  lemma ClosedRoute(out: ChannelState, inner: seq<RouteHop>, last: ChannelState, amount: nat, hops: seq<RouteHop>)
    requires inner != []
    requires var prepended := [RouteHop(out, inner[0].amount, inner[0].delay)] + inner;
             hops == CarriedHops(ChannelsOf(prepended) + [last], amount, INITIAL_DELAY)
    ensures hops == CarriedHops([out] + ChannelsOf(inner) + [last], amount, INITIAL_DELAY)
    ensures hops != [] && hops[0].amount - amount == Cost(ChannelsOf(inner) + [last], amount)
  {
    var p := [out] + ChannelsOf(inner) + [last];
    assert ChannelsOf([RouteHop(out, inner[0].amount, inner[0].delay)] + inner) == [out] + ChannelsOf(inner);
    FeeIsSum(p, amount, INITIAL_DELAY);
    assert p[1..] == ChannelsOf(inner) + [last];
  }

  // ---------------------------------------------------------------- accepted routes

  lemma ConnectsAppend(p: seq<ChannelState>, c: ChannelState, src: NodeId)
    requires Connects(p, src, c.info.source)
    ensures Connects(p + [c], src, c.info.destination)
  {
    if p == [] {
      assert Connects(([c])[1..], c.info.destination, c.info.destination);
    } else {
      assert (p + [c])[1..] == p[1..] + [c];
      ConnectsAppend(p[1..], c, p[0].info.destination);
    }
  }

  /** An accepted route is a simple cycle through our own node within the hop limit and the price limit. */
  lemma AcceptedIsCheapCycle(net: Network, self: NodeId, out: ChannelState, last: ChannelState, amount: nat,
                             maxPPM: nat, maxHops: int, d: Result<seq<RouteHop>, SearchError>)
    requires amount > 0 && OwnChannels(self, out, last)
    requires Answers(InnerQuery(net, self, out, last, amount, maxHops), d)
    requires RouteOutcome(d, out, last, amount, maxPPM).Ok?
    ensures var hops := RouteOutcome(d, out, last, amount, maxPPM).value;
            IsCheapCycle(net, self, out, last, amount, maxPPM, maxHops, hops)
  {
    var q := InnerQuery(net, self, out, last, amount, maxHops);
    AcceptedOutcome(d, out, last, amount, maxPPM);
    hide Answers, RouteOutcome, CarriedHops, IsRoute, IsInner, Connects, ChannelsOf;
    SearchSound(q, d);
    RouteIffInner(net, self, out, last, amount, maxHops, ChannelsOf(d.value));
    ClosedCycle(q, ChannelsOf(d.value), out, last, self);
  }

  /**
   * With as many hops allowed as the graph can use and no HTLC minimum above the amount, the inner part
   * found is the cheapest path of the graph around our own node, and "no route" means that all of them
   * cost 2^31 msat or more.
   */
  lemma InnerIsCheapest(net: Network, self: NodeId, out: ChannelState, last: ChannelState, amount: nat,
                        maxHops: int, d: Result<seq<RouteHop>, SearchError>)
    requires var q := InnerQuery(net, self, out, last, amount, maxHops); WellFormed(q) && Answers(q, d)
    requires out.info.destination in net.inbound && last.info.source in net.inbound
    requires maxHops >= |net.inbound.Keys| + 1
    requires forall id :: id in net.channels ==> net.channels[id].minHtlc <= amount
    ensures d.Ok? || d == Err(NoRoute)
    ensures d.Ok? ==> IsInner(net, self, out, last, amount, ChannelsOf(d.value))
    ensures d.Ok? ==> forall p :: IsInner(net, self, out, last, amount, p) ==>
              Cost(ChannelsOf(d.value), amount) <= Cost(p, amount)
    ensures d == Err(NoRoute) <==>
            !exists p :: IsInner(net, self, out, last, amount, p) && Cost(p, amount) < 2147483648
  {
    hide Answers, IsRoute, IsInner, WellFormed, Entering;
    var q := InnerQuery(net, self, out, last, amount, maxHops);
    CheapestWithEnoughHops(q, d);
    forall p ensures IsRoute(q, p, q.src, q.dst) <==> IsInner(net, self, out, last, amount, p) {
      RouteIffInner(net, self, out, last, amount, maxHops, p);
    }
    if d.Ok? { SearchSound(q, d); }
  }

  /** The hops of an accepted outcome and what is known of their price. */
  lemma AcceptedOutcome(d: Result<seq<RouteHop>, SearchError>, out: ChannelState, last: ChannelState, amount: nat,
                        maxPPM: nat)
    requires amount > 0 && RouteOutcome(d, out, last, amount, maxPPM).Ok?
    ensures d.Ok? && ChannelsOf(d.value) != []
    ensures var hops := RouteOutcome(d, out, last, amount, maxPPM).value;
            var p := [out] + ChannelsOf(d.value) + [last];
            && ChannelsOf(hops) == p && hops == CarriedHops(p, amount, INITIAL_DELAY)
            && (hops[0].amount - amount) * 1000000 < (maxPPM + 1) * amount
  {
    var p := [out] + ChannelsOf(d.value) + [last];
    var hops := CarriedHops(p, amount, INITIAL_DELAY);
    forall i | 0 <= i < |p| ensures hops[i].channel == p[i] { CarriedHopsAt(p, amount, INITIAL_DELAY, i); }
    assert p[1..] == ChannelsOf(d.value) + [last];
    FeeIsSum(p, amount, INITIAL_DELAY);
    PriceLimit(Cost(p[1..], amount), amount, maxPPM);
  }

  /** A searched path between our own two channels is a simple cycle. */
  lemma ClosedCycle(q: Query, path: seq<ChannelState>, out: ChannelState, last: ChannelState, self: NodeId)
    requires SimplePath(path, q.src, q.dst) && IsRoute(q, path, q.src, q.dst) && q.exclude == {self}
    requires q.src == out.info.destination && q.dst == last.info.source
    requires out.info.source == self && last.info.destination == self && last.info.source != self
    ensures var p := [out] + path + [last];
            && Connects(p, self, self) && Distinct(Sources(p))
            && p[0] == out && p[|p| - 1] == last && p[1..|p| - 1] == path
  {
    var p := [out] + path + [last];
    assert p[1..] == path + [last];
    ConnectsAppend(path, last, out.info.destination);
    CycleIsSimple(q, path, out, last, self);
  }

  lemma CycleIsSimple(q: Query, path: seq<ChannelState>, out: ChannelState, last: ChannelState, self: NodeId)
    requires SimplePath(path, q.src, last.info.source) && IsRoute(q, path, q.src, q.dst)
    requires out.info.source == self && last.info.source != self && q.exclude == {self}
    ensures Distinct(Sources([out] + path + [last]))
  {
    var p := [out] + path + [last];
    var s := Sources(p);
    forall i, j | 0 <= i < j < |s| ensures s[i] != s[j] {
      if 0 < j < |p| - 1 { assert p[j] == path[j - 1]; }
      if 0 < i { assert p[i] == path[i - 1] && Sources(path)[i - 1] == s[i]; }
      if 0 < i && j < |p| - 1 { assert Sources(path)[j - 1] == s[j]; }
    }
  }

  /** A searched route is accepted exactly if its fee is below one ppm more than the limit. */
  lemma AcceptedIffCheap(d: Result<seq<RouteHop>, SearchError>, out: ChannelState, last: ChannelState, amount: nat,
                         maxPPM: nat)
    requires amount > 0 && d.Ok? && d.value != []
    ensures RouteOutcome(d, out, last, amount, maxPPM).Ok?
       <==> Cost(ChannelsOf(d.value) + [last], amount) * 1000000 < (maxPPM + 1) * amount
    ensures var o := RouteOutcome(d, out, last, amount, maxPPM);
            o.Err? ==>
              && o.error.TooExpensive? && o.error.maxPPM == maxPPM < o.error.feePPM
              && o.error.feePPM * amount <= Cost(ChannelsOf(d.value) + [last], amount) * 1000000
  {
    var cost := Cost(ChannelsOf(d.value) + [last], amount);
    PriceLimit(cost, amount, maxPPM);
    assert PartsPerMillion(cost, amount) * amount <= cost * 1000000;
  }

  /** A closing channel dearer than the limit makes every route too dear: a push need not try it. */
  lemma DearClosingNeverAccepted(d: Result<seq<RouteHop>, SearchError>, out: ChannelState, last: ChannelState,
                                 amount: nat, maxPPM: nat)
    requires amount > 0 && ComputeFeePPM(last.info, amount) > maxPPM
    ensures !RouteOutcome(d, out, last, amount, maxPPM).Ok?
  {
    if d.Ok? && d.value != [] {
      var fee, cost := ComputeFee(last.info, amount), Cost(ChannelsOf(d.value) + [last], amount);
      EnteringAppend(ChannelsOf(d.value), last, amount);
      AcceptedIffCheap(d, out, last, amount, maxPPM);
      PriceLimit(fee, amount, maxPPM);
      MulMonotone(fee, cost, 1000000);
    }
  }

  /** The index panic happens exactly when both of our channels lead to the same, known peer. */
  lemma PanicsIffSamePeer(q: Query, d: Result<seq<RouteHop>, SearchError>, out: ChannelState, last: ChannelState,
                          amount: nat, maxPPM: nat)
    requires amount > 0 && Answers(q, d) && q.src == out.info.destination && q.dst == last.info.source
    ensures RouteOutcome(d, out, last, amount, maxPPM) == Err(EmptyRoute) <==> q.src == q.dst && q.src in q.nodes
  {
    if d.Ok? {
      SearchSound(q, d);
      assert d.value == [] ==> ChannelsOf(d.value) == [];
    }
    if q.src == q.dst && q.src in q.nodes { SameNode(q, d); }
  }

  // ---------------------------------------------------------------- attempts

  /** What one attempt meets, in the order it asks. */
  datatype Attempt = Attempt(stopped: bool, liquid: bool, hashed: bool, route: RouteAnswer, pay: PayAnswer)

  datatype RouteAnswer = Found | NoneFound | TooDear | Failed

  datatype PayAnswer = Paid | PayTimeout | PayFeeInsufficient | PayPeerNotReady | PayOther

  datatype AttemptError =
    | CircularStopped | Illiquid | HashFailed | NoRouteFound | RouteTooExpensive | RouteFailed
    | SendPayTimeout | WireFeeInsufficient | FirstPeerNotReady | TemporaryFailure

  /** Whether the attempt gets as far as sending a payment. */
  predicate Sends(a: Attempt) {
    !a.stopped && a.liquid && a.hashed && a.route == Found
  }

  /** `runAttempt` with `tryRoute`: the error, if any. */
  function RunAttempt(a: Attempt): Option<AttemptError> {
    if a.stopped then Some(CircularStopped)
    else if !a.liquid then Some(Illiquid)
    else if !a.hashed then Some(HashFailed)
    else
      match a.route
      case NoneFound => Some(NoRouteFound)
      case TooDear => Some(RouteTooExpensive)
      case Failed => Some(RouteFailed)
      case Found =>
        match a.pay
        case Paid => None
        case PayTimeout => Some(SendPayTimeout)
        case PayFeeInsufficient => Some(WireFeeInsufficient)
        case PayPeerNotReady => Some(FirstPeerNotReady)
        case PayOther => Some(TemporaryFailure)
  }

  /** A payment is out exactly for success and the four errors after sending; only the vague one is retried. */
  lemma SentErrors(a: Attempt)
    ensures Sends(a) <==> RunAttempt(a) in {None, Some(SendPayTimeout), Some(WireFeeInsufficient),
                                            Some(FirstPeerNotReady), Some(TemporaryFailure)}
    ensures Retries(a) <==> Sends(a) && a.pay == PayOther
    ensures Deepens(a) <==> !a.stopped && a.liquid && a.hashed && a.route in {NoneFound, TooDear}
    ensures RunAttempt(a) == Some(CircularStopped) <==> a.stopped
    ensures RunAttempt(a) == Some(Illiquid) <==> !a.stopped && !a.liquid
    ensures RunAttempt(a) == Some(SendPayTimeout) <==> Sends(a) && a.pay == PayTimeout
    ensures RunAttempt(a) == Some(WireFeeInsufficient) <==> Sends(a) && a.pay == PayFeeInsufficient
    ensures RunAttempt(a) == None <==> Sends(a) && a.pay == Paid
  {
  }

  predicate Deepens(a: Attempt) {
    RunAttempt(a) == Some(NoRouteFound) || RunAttempt(a) == Some(RouteTooExpensive)
  }

  predicate Retries(a: Attempt) {
    RunAttempt(a) == Some(TemporaryFailure)
  }

  /** How many payments were sent, how many of them retried, and how often the hop limit was raised. */
  datatype Tally = Tally(sent: nat, retried: nat, deepened: nat)

  function Add(t: Tally, a: Attempt): Tally {
    Tally(t.sent + (if Sends(a) then 1 else 0),
          t.retried + (if Retries(a) then 1 else 0),
          t.deepened + (if Deepens(a) then 1 else 0))
  }

  /** The tally of the first `n` attempts. */
  function Tallied(world: (nat, int) -> Attempt, n: nat): Tally {
    if n == 0 then Tally(0, 0, 0)
    else
      var t := Tallied(world, n - 1);
      Add(t, world(n - 1, 3 + t.deepened))
  }

  lemma TallyNext(world: (nat, int) -> Attempt, n: nat)
    ensures Tallied(world, n + 1) == Add(Tallied(world, n), Met(world, n))
  {
  }

  /** Attempt `k` runs with three hops and one for each raise before it. */
  function Met(world: (nat, int) -> Attempt, k: nat): Attempt {
    world(k, 3 + Tallied(world, k).deepened)
  }

  predicate Continues(a: Attempt) {
    Deepens(a) || Retries(a)
  }

  /** With tally `t` behind it another attempt is allowed. */
  predicate Allowed(t: Tally, attempts: int, maxHops: int) {
    t.retried < attempts && 3 + t.deepened <= maxHops
  }

  /** The first `n` attempts did not end the loop, and each was within the tries and the hops. */
  ghost predicate Ongoing(world: (nat, int) -> Attempt, attempts: int, maxHops: int, n: nat) {
    forall k: nat {:trigger Met(world, k)} :: k < n ==>
      Continues(Met(world, k)) && Allowed(Tallied(world, k), attempts, maxHops)
  }

  /** The loop makes `made` attempts: the last one `ended` it, or tries or hops are used up. */
  ghost predicate StopsAfter(world: (nat, int) -> Attempt, attempts: int, maxHops: int, made: nat, ended: bool) {
    if ended then
      && made > 0 && !Continues(Met(world, made - 1))
      && Ongoing(world, attempts, maxHops, made - 1)
      && Allowed(Tallied(world, made - 1), attempts, maxHops)
    else Ongoing(world, attempts, maxHops, made) && !Allowed(Tallied(world, made), attempts, maxHops)
  }

  lemma OneMoreOngoing(world: (nat, int) -> Attempt, attempts: int, maxHops: int, n: nat)
    requires Ongoing(world, attempts, maxHops, n)
    requires Continues(Met(world, n)) && Allowed(Tallied(world, n), attempts, maxHops)
    ensures Ongoing(world, attempts, maxHops, n + 1)
  {
  }

  lemma OngoingFromStart(world: (nat, int) -> Attempt, attempts: int, maxHops: int)
    ensures Ongoing(world, attempts, maxHops, 0)
  {
  }

  /** What each answer of an attempt means for the loop. */
  lemma Classify(a: Attempt)
    ensures Deepens(a) <==> RunAttempt(a) in {Some(NoRouteFound), Some(RouteTooExpensive)}
    ensures Retries(a) <==> RunAttempt(a) == Some(TemporaryFailure)
    ensures Deepens(a) ==> !Sends(a)
    ensures Retries(a) || RunAttempt(a) == None ==> Sends(a)
  {
  }

  /**
   * The retry loop. `world(k, h)` is what attempt `k` meets with `h` hops allowed; `made`
   * attempts are made and `sent` payments sent. Routing failures raise the hop limit, temporary
   * payment failures use up a try; `ended` tells that the last attempt ended the loop.
   */
  method Run(attempts: int, maxHops: int, world: (nat, int) -> Attempt)
    returns (success: bool, reported: int, made: nat, sent: nat, ended: bool)
    ensures StopsAfter(world, attempts, maxHops, made, ended)
    ensures success <==> ended && RunAttempt(Met(world, made - 1)) == None
    ensures sent == Tallied(world, made).sent
    ensures reported == Tallied(world, made).retried + if success then 1 else 0
    ensures sent == reported + if ended && !success && Sends(Met(world, made - 1)) then 1 else 0
  {
    assert Tallied(world, 0) == Tally(0, 0, 0);
    hide Tallied, RunAttempt, Sends, Retries, Deepens, Ongoing;
    OngoingFromStart(world, attempts, maxHops);
    var hops, i := 3, 1;
    success, made, sent, ended := false, 0, 0, false;
    while i <= attempts
      invariant hops == 3 + Tallied(world, made).deepened && i == 1 + Tallied(world, made).retried
      invariant sent == Tallied(world, made).sent == Tallied(world, made).retried
      invariant Ongoing(world, attempts, maxHops, made) && !ended && !success
      decreases attempts - i + if maxHops >= hops then maxHops - hops + 1 else 0
    {
      if hops > maxHops { break; }
      var a := world(made, hops);
      TallyNext(world, made);
      Classify(a);
      if Continues(a) { OneMoreOngoing(world, attempts, maxHops, made); }
      made := made + 1;
      if Sends(a) { sent := sent + 1; }
      var err := RunAttempt(a);
      if err == None {
        return true, i, made, sent, true;
      }
      if err == Some(NoRouteFound) {
        hops := hops + 1;
        continue;
      }
      if err == Some(RouteTooExpensive) {
        hops := hops + 1;
        continue;
      }
      if err == Some(SendPayTimeout) {
        ended := true;
        break;
      }
      if err == Some(WireFeeInsufficient) {
        ended := true;
        break;
      }
      if err != Some(TemporaryFailure) {
        ended := true;
        break;
      }
      i := i + 1;
    }
    reported := i - 1;
  }

  lemma {:induction false} TallySplit(world: (nat, int) -> Attempt, attempts: int, maxHops: int, n: nat)
    requires Ongoing(world, attempts, maxHops, n)
    ensures Tallied(world, n).deepened + Tallied(world, n).retried == n
    ensures Tallied(world, n).sent == Tallied(world, n).retried
  {
    if n > 0 {
      TallySplit(world, attempts, maxHops, n - 1);
      assert Continues(Met(world, n - 1));
    }
  }

  /**
   * Bounds for any way the loop can end, after `n` attempts that went on and perhaps a last one:
   * with at least one try and three hops, at most tries + hops - 3 attempts and at most as many
   * payments as tries; no payment follows a success.
   */
  lemma RunBounds(attempts: int, maxHops: int, world: (nat, int) -> Attempt, n: nat)
    requires attempts >= 1 && maxHops >= 3 && Ongoing(world, attempts, maxHops, n)
    ensures n <= attempts + maxHops - 3 && Tallied(world, n).sent <= attempts
    ensures Allowed(Tallied(world, n), attempts, maxHops) ==>
              n + 1 <= attempts + maxHops - 3 && Tallied(world, n + 1).sent <= attempts
    ensures forall k: nat {:trigger Met(world, k)} :: k < n ==> RunAttempt(Met(world, k)) != None
  {
    TallySplit(world, attempts, maxHops, n);
    TallyNext(world, n);
    if n > 0 {
      TallySplit(world, attempts, maxHops, n - 1);
      TallyNext(world, n - 1);
      assert Continues(Met(world, n - 1));
    }
  }

  /** A world without short routes, then with temporary failures only. */
  function DeepThenRetry(h: nat): (nat, int) -> Attempt {
    (k, _) => Attempt(false, true, true, if k < h then NoneFound else Found, PayOther)
  }

  /** The bound on the attempts is reached. */
  lemma RunBoundIsTight(attempts: int, maxHops: int)
    requires attempts >= 1 && maxHops >= 3
    ensures Ongoing(DeepThenRetry(maxHops - 3), attempts, maxHops, attempts + maxHops - 3)
  {
    var world := DeepThenRetry(maxHops - 3);
    forall k: nat | k < attempts + maxHops - 3
      ensures Continues(Met(world, k)) && Allowed(Tallied(world, k), attempts, maxHops)
    {
      DeepFirst(maxHops - 3, k);
    }
  }

  lemma {:induction false} DeepFirst(h: nat, n: nat)
    ensures Tallied(DeepThenRetry(h), n).deepened == Min(n, h)
    ensures Tallied(DeepThenRetry(h), n).retried == n - Min(n, h)
  {
    if n > 0 { DeepFirst(h, n - 1); }
  }
}
