/** The route object: channels put before and behind the searched ones, amounts and delays recomputed. */
module PaymentRoutes {
  import opened Base
  import opened Channels
  import opened Fees
  import opened Routes

  const INITIAL_DELAY: nat := 144

  class Route {
    const source: NodeId
    const destination: NodeId
    const amount: nat
    var hops: seq<RouteHop>

    constructor (source: NodeId, destination: NodeId, amount: nat, hops: seq<RouteHop>)
      ensures this.source == source && this.destination == destination
      ensures this.amount == amount && this.hops == hops
    {
      this.source := source;
      this.destination := destination;
      this.amount := amount;
      this.hops := hops;
    }

    /** The total fee; the first hop's amount is what leaves our own node. */
    function Fee(): int
      requires |hops| > 0
      reads this
    {
      hops[0].amount - amount
    }

    method Prepend(c: ChannelState)
      requires |hops| > 0
      modifies this`hops
      ensures hops == [RouteHop(c, old(hops[0]).amount, old(hops[0]).delay)] + old(hops)
    {
      var first := hops[0];
      hops := [RouteHop(c, first.amount, first.delay)] + hops;
    }

    /** Whatever the search had stored, every hop ends with the amount and delay leaving its channel. */
    method Append(c: ChannelState)
      modifies this`hops
      ensures hops == CarriedHops(ChannelsOf(old(hops)) + [c], amount, INITIAL_DELAY)
    {
      hops := hops + [RouteHop(c, amount, INITIAL_DELAY)];
      assert ChannelsOf(hops) == ChannelsOf(old(hops)) + [c];
      RecomputeFeeAndDelay();
    }

    method RecomputeFeeAndDelay()
      modifies this`hops
      ensures hops == if old(hops) == [] then []
                      else var last := old(hops[|hops| - 1]);
                           CarriedHops(ChannelsOf(old(hops)), last.amount, last.delay)
    {
      if hops == [] { return; }
      ghost var p, last := ChannelsOf(hops), hops[|hops| - 1];
      var i := |hops| - 2;
      assert p[|p| - 1..] == [last.channel];
      while i >= 0
        invariant -1 <= i <= |hops| - 2 && ChannelsOf(hops) == p
        invariant hops[i + 1..] == CarriedHops(p[i + 1..], last.amount, last.delay)
        decreases i
      {
        var hop := hops[i + 1];
        assert p[i + 1..][1..] == p[i + 2..] && p[i..][1..] == p[i + 1..];
        assert hop == hops[i + 1..][0];
        var amountToForward := hop.amount;
        hops := hops[i := RouteHop(hops[i].channel,
                                   amountToForward + ComputeFee(hop.channel.info, amountToForward),
                                   hop.delay + hop.channel.info.delay)];
        assert hops[i..] == [hops[i]] + hops[i + 1..];
        i := i - 1;
      }
      assert hops[0..] == hops && p[0..] == p;
    }
  }

  // ---------------------------------------------------------------- fees of a paid route

  /** The fee a route listing shows for hop `i`: none for our own channel. */
  function ListedFee(hops: seq<RouteHop>, i: nat): int
    requires i < |hops|
  {
    if i == 0 then 0 else hops[i - 1].amount - hops[i].amount
  }

  /** One line of a route listing. */
  datatype ListedHop = ListedHop(source: NodeId, scid: Scid, amount: nat, delay: nat, fee: int, feePPM: int)

  /** The listing of a route: the running difference of amounts is each hop's fee. */
  method ListRoute(hops: seq<RouteHop>) returns (listed: seq<ListedHop>)
    requires |hops| > 0 && forall i :: 0 < i < |hops| ==> hops[i].amount > 0
    ensures |listed| == |hops|
    ensures forall i :: 0 <= i < |hops| ==>
              && listed[i].source == hops[i].channel.info.source && listed[i].scid == hops[i].channel.info.scid
              && listed[i].amount == hops[i].amount && listed[i].delay == hops[i].delay
              && listed[i].fee == ListedFee(hops, i)
              && listed[i].feePPM == if i == 0 then 0 else ListedFee(hops, i) * 1000000 / hops[i].amount
  {
    var first := hops[0];
    listed := [ListedHop(first.channel.info.source, first.channel.info.scid, first.amount, first.delay, 0, 0)];
    for i := 1 to |hops|
      invariant |listed| == i
      invariant forall k :: 0 <= k < i ==>
                  && listed[k].source == hops[k].channel.info.source && listed[k].scid == hops[k].channel.info.scid
                  && listed[k].amount == hops[k].amount && listed[k].delay == hops[k].delay
                  && listed[k].fee == ListedFee(hops, k)
                  && listed[k].feePPM == if k == 0 then 0 else ListedFee(hops, k) * 1000000 / hops[k].amount
    {
      var hop := hops[i];
      var fee := hops[i - 1].amount - hop.amount;
      listed := listed + [ListedHop(hop.channel.info.source, hop.channel.info.scid, hop.amount, hop.delay,
                                    fee, fee * 1000000 / hop.amount)];
    }
  }

  function SumListed(hops: seq<RouteHop>, n: nat): int
    requires n <= |hops|
  {
    if n == 0 then 0 else SumListed(hops, n - 1) + ListedFee(hops, n - 1)
  }

  /** The listed fee of a hop is what its channel charges for the amount it carries. */
  lemma ListedFeeIsCharged(p: seq<ChannelState>, amount: nat, delay: nat, i: nat)
    requires 0 < i < |p|
    ensures var hops := CarriedHops(p, amount, delay);
            ListedFee(hops, i) == ComputeFee(p[i].info, hops[i].amount)
  {
    CarriedHopsAt(p, amount, delay, i);
    CarriedHopsAt(p, amount, delay, i - 1);
    assert p[i..][1..] == p[i + 1..];
  }

  /**
   * The last hop carries the amount and the final delay; any other what the next one carries and the
   * next channel charges, and the next channel's delay on top.
   */
  lemma HopsAddUp(p: seq<ChannelState>, amount: nat, delay: nat, i: nat)
    requires i < |p|
    ensures var hops := CarriedHops(p, amount, delay);
            && hops[i].channel == p[i]
            && (i + 1 == |p| ==> hops[i].amount == amount && hops[i].delay == delay)
            && (i + 1 < |p| ==>
                  && hops[i].amount == hops[i + 1].amount + ComputeFee(p[i + 1].info, hops[i + 1].amount)
                  && hops[i].delay == hops[i + 1].delay + p[i + 1].info.delay)
  {
    hide ComputeFee, CarriedHops;
    CarriedHopsAt(p, amount, delay, i);
    if i + 1 < |p| {
      CarriedHopsAt(p, amount, delay, i + 1);
      assert p[i + 1..][1..] == p[i + 2..];
    } else {
      assert p[i + 1..] == [];
    }
  }

  lemma {:induction false} ListedFeesTelescope(hops: seq<RouteHop>, n: nat)
    requires 0 < n <= |hops|
    ensures SumListed(hops, n) == hops[0].amount - hops[n - 1].amount
  {
    if n > 1 { ListedFeesTelescope(hops, n - 1); }
  }

  /** The route's fee is the sum of the listed fees, and the cost of its channels but the first. */
  lemma FeeIsSum(p: seq<ChannelState>, amount: nat, delay: nat)
    requires p != []
    ensures var hops := CarriedHops(p, amount, delay);
            && hops[0].amount - amount == SumListed(hops, |hops|)
            && hops[0].amount - amount == Cost(p[1..], amount)
  {
    var hops := CarriedHops(p, amount, delay);
    CarriedHopsAt(p, amount, delay, 0);
    CarriedHopsAt(p, amount, delay, |p| - 1);
    assert p[|p|..] == [];
    ListedFeesTelescope(hops, |hops|);
  }

  // ---------------------------------------------------------------- searched and paid amounts

  /** A channel behind a path makes the path carry its fee as well. */
  lemma {:induction false} EnteringAppend(p: seq<ChannelState>, c: ChannelState, amount: nat)
    ensures Entering(p + [c], amount) == Entering(p, amount + ComputeFee(c.info, amount))
  {
    if p == [] {
      assert (p + [c])[1..] == [];
    } else {
      assert (p + [c])[1..] == p[1..] + [c];
      EnteringAppend(p[1..], c, amount);
    }
  }

  lemma {:induction false} DelayAdds(p: seq<ChannelState>, delay: nat)
    ensures EnteringDelay(p, delay) == EnteringDelay(p, 0) + delay
  {
    if p != [] { DelayAdds(p[1..], delay); }
  }

  /**
   * Without the closing channel the search stores in a hop what the hop before it carries: the
   * amount itself, and the delay but for the final one, which the search does not know.
   */
  lemma SearchIsShifted(q: seq<ChannelState>, first: ChannelState, amount: nat, delay: nat, i: nat)
    requires i < |q|
    ensures var stored, carried := SearchHops(q, amount)[i], CarriedHops([first] + q, amount, delay)[i];
            carried.amount == stored.amount && carried.delay == stored.delay + delay
  {
    SearchHopsAt(q, amount, i);
    CarriedHopsAt([first] + q, amount, delay, i);
    assert ([first] + q)[i + 1..] == q[i..];
    DelayAdds(q[i..], delay);
  }

  lemma BehindFirst(q: seq<ChannelState>, first: ChannelState, last: ChannelState, i: nat)
    requires i <= |q|
    ensures ([first] + q + [last])[i + 1..] == q[i..] + [last]
  {
    assert [first] + q + [last] == [first] + (q + [last]);
    assert (q + [last])[i..] == q[i..] + [last];
  }

  /** What hop `i` carries once the route is closed by `last`. */
  lemma ClosedRouteCarries(q: seq<ChannelState>, first: ChannelState, last: ChannelState, amount: nat, delay: nat,
                           i: nat)
    requires i <= |q|
    ensures CarriedHops([first] + q + [last], amount, delay)[i].amount
         == Entering(q[i..], amount + ComputeFee(last.info, amount))
  {
    var p := [first] + q + [last];
    CarriedHopsAt(p, amount, delay, i);
    BehindFirst(q, first, last, i);
    EnteringAppend(q[i..], last, amount);
  }

  lemma {:induction false} EnteringMonotone(p: seq<ChannelState>, x: nat, y: nat)
    requires x <= y
    ensures Entering(p, x) <= Entering(p, y)
  {
    if p != [] {
      EnteringMonotone(p[1..], x, y);
      FeeMonotone(p[0].info, Entering(p[1..], x), Entering(p[1..], y));
    }
  }

  /** What hop `i` of the closed route carries against what the search checked it for. */
  function Validated(q: seq<ChannelState>, amount: nat, i: nat): nat
    requires i <= |q|
  {
    Entering(q[i..], amount)
  }

  /** Inner hops never carry less than the search checked them for, and just that exactly if closing is free. */
  lemma CarriesValidatedIff(q: seq<ChannelState>, first: ChannelState, last: ChannelState, amount: nat, delay: nat)
    requires q != []
    ensures var hops := CarriedHops([first] + q + [last], amount, delay);
            && (forall i :: 1 <= i <= |q| ==> hops[i].amount >= Validated(q, amount, i))
            && ((forall i :: 1 <= i <= |q| ==> hops[i].amount == Validated(q, amount, i))
                <==> ComputeFee(last.info, amount) == 0)
  {
    var fee := ComputeFee(last.info, amount);
    var hops := CarriedHops([first] + q + [last], amount, delay);
    forall i | 1 <= i <= |q|
      ensures hops[i].amount == Entering(q[i..], amount + fee) && hops[i].amount >= Validated(q, amount, i)
    {
      ClosedRouteCarries(q, first, last, amount, delay, i);
      EnteringMonotone(q[i..], amount, amount + fee);
    }
    assert q[|q|..] == [];
    assert hops[|q|].amount == amount + fee && Validated(q, amount, |q|) == amount;
  }

  /** Every inner hop of the closed route can forward what it carries. */
  ghost predicate Payable(q: seq<ChannelState>, first: ChannelState, last: ChannelState, amount: nat, delay: nat) {
    forall i {:trigger q[i]} :: 0 <= i < |q| ==>
      CanForward(q[i], CarriedHops([first] + q + [last], amount, delay)[i + 1].amount)
  }

  ghost predicate ForwardsAt(q: seq<ChannelState>, amount: nat, i: nat)
    requires i < |q|
  {
    CanForward(q[i], Entering(q[i + 1..], amount))
  }

  lemma {:induction false} UsableIfEach(q: seq<ChannelState>, amount: nat)
    requires forall i: nat :: i < |q| ==> ForwardsAt(q, amount, i)
    ensures Usable(q, amount)
  {
    if q != [] {
      forall i: nat | i < |q[1..]| ensures ForwardsAt(q[1..], amount, i) {
        assert ForwardsAt(q, amount, i + 1) && q[1..][i + 1..] == q[i + 2..];
      }
      UsableIfEach(q[1..], amount);
      assert ForwardsAt(q, amount, 0);
    }
  }

  /** The closed route is payable exactly if its inner part is usable for the amount plus the closing fee. */
  lemma PayableIffUsable(q: seq<ChannelState>, first: ChannelState, last: ChannelState, amount: nat, delay: nat)
    ensures Payable(q, first, last, amount, delay) <==> Usable(q, amount + ComputeFee(last.info, amount))
  {
    var total := amount + ComputeFee(last.info, amount);
    if Usable(q, total) {
      forall i: nat | i < |q| ensures CanForward(q[i], CarriedHops([first] + q + [last], amount, delay)[i + 1].amount) {
        ClosedRouteCarries(q, first, last, amount, delay, i + 1);
        UsableAt(q, total, i);
      }
    }
    if Payable(q, first, last, amount, delay) {
      forall i: nat | i < |q| ensures ForwardsAt(q, total, i) {
        ClosedRouteCarries(q, first, last, amount, delay, i + 1);
        assert CanForward(q[i], CarriedHops([first] + q + [last], amount, delay)[i + 1].amount);
      }
      UsableIfEach(q, total);
    }
  }
}
