/** Routes as channel sequences: what enters a route, what it costs, whether it can carry a payment. */
module Routes {
  import opened Base
  import opened Channels

  /** A hop of a route: a channel, an amount in msat and a CLTV delay. */
  datatype RouteHop = RouteHop(channel: ChannelState, amount: nat, delay: nat)

  /** The amount that must enter the first channel of `p` so that `amount` leaves the last one. */
  function Entering(p: seq<ChannelState>, amount: nat): (r: nat)
    ensures r >= amount
  {
    if p == [] then amount
    else Entering(p[1..], amount) + ComputeFee(p[0].info, Entering(p[1..], amount))
  }

  function EnteringDelay(p: seq<ChannelState>, delay: nat): nat {
    if p == [] then delay else EnteringDelay(p[1..], delay) + p[0].info.delay
  }

  /** The total fee of `p`. */
  function Cost(p: seq<ChannelState>, amount: nat): nat {
    Entering(p, amount) - amount
  }

  /** `p` leads from `src` to `dst`, each channel starting where the one before ends. */
  predicate Connects(p: seq<ChannelState>, src: NodeId, dst: NodeId) {
    if p == [] then src == dst
    else p[0].info.source == src && Connects(p[1..], p[0].info.destination, dst)
  }

  /** Every channel of `p` can forward the amount that leaves it. */
  predicate Usable(p: seq<ChannelState>, amount: nat) {
    p == [] || (Usable(p[1..], amount) && CanForward(p[0], Entering(p[1..], amount)))
  }

  /** No channel of `p` has an HTLC minimum above `amount`. */
  predicate AcceptsMinimum(p: seq<ChannelState>, amount: nat) {
    forall i :: 0 <= i < |p| ==> p[i].minHtlc <= amount
  }

  /** The nodes channels of `p` start from. */
  function Sources(p: seq<ChannelState>): (r: seq<NodeId>)
    ensures |r| == |p| && forall i :: 0 <= i < |p| ==> r[i] == p[i].info.source
  {
    if p == [] then [] else [p[0].info.source] + Sources(p[1..])
  }

  /** A connected path that visits no node twice. */
  predicate SimplePath(p: seq<ChannelState>, src: NodeId, dst: NodeId) {
    Connects(p, src, dst) && Distinct(Sources(p)) && dst !in Sources(p)
  }

  lemma FirstSource(t: seq<ChannelState>)
    requires t != []
    ensures t[0].info.source in Sources(t)
  {
    assert Sources(t)[0] == t[0].info.source;
  }

  /** A simple path from a node to itself is empty. */
  lemma RoundTripEmpty(t: seq<ChannelState>, v: NodeId)
    requires SimplePath(t, v, v)
    ensures t == []
  {
    if t != [] { FirstSource(t); }
  }

  /** Hops as the search stores them: the amount and delay entering each channel. */
  function SearchHops(p: seq<ChannelState>, amount: nat): (r: seq<RouteHop>)
    ensures |r| == |p|
  {
    if p == [] then []
    else [RouteHop(p[0], Entering(p, amount), EnteringDelay(p, 0))] + SearchHops(p[1..], amount)
  }

  /** Hops as they are paid: the amount and delay leaving each channel. */
  function CarriedHops(p: seq<ChannelState>, amount: nat, delay: nat): (r: seq<RouteHop>)
    ensures |r| == |p|
  {
    if p == [] then []
    else [RouteHop(p[0], Entering(p[1..], amount), EnteringDelay(p[1..], delay))]
         + CarriedHops(p[1..], amount, delay)
  }

  function ChannelsOf(hops: seq<RouteHop>): (r: seq<ChannelState>)
    ensures |r| == |hops| && forall i :: 0 <= i < |r| ==> r[i] == hops[i].channel
  {
    seq(|hops|, i requires 0 <= i < |hops| => hops[i].channel)
  }

  lemma {:induction false} SearchHopsAt(p: seq<ChannelState>, amount: nat, i: nat)
    requires i < |p|
    ensures SearchHops(p, amount)[i] == RouteHop(p[i], Entering(p[i..], amount), EnteringDelay(p[i..], 0))
  {
    if i > 0 {
      SearchHopsAt(p[1..], amount, i - 1);
      assert p[1..][i - 1..] == p[i..];
    }
  }

  lemma {:induction false} CarriedHopsAt(p: seq<ChannelState>, amount: nat, delay: nat, i: nat)
    requires i < |p|
    ensures CarriedHops(p, amount, delay)[i]
         == RouteHop(p[i], Entering(p[i + 1..], amount), EnteringDelay(p[i + 1..], delay))
  {
    if i > 0 {
      CarriedHopsAt(p[1..], amount, delay, i - 1);
      assert p[1..][i..] == p[i + 1..];
    }
  }

  /** Any channel of a usable route can forward what leaves it. */
  lemma {:induction false} UsableAt(p: seq<ChannelState>, amount: nat, i: nat)
    requires Usable(p, amount) && i < |p|
    ensures CanForward(p[i], Entering(p[i + 1..], amount))
  {
    if i > 0 {
      UsableAt(p[1..], amount, i - 1);
      assert p[1..][i..] == p[i + 1..];
    }
  }

  /** Only the lower HTLC limit can stop a smaller amount where a larger one passes. */
  lemma CanForwardLess(c: ChannelState, x: nat, y: nat)
    requires CanForward(c, y) && c.minHtlc <= x <= y
    ensures CanForward(c, x)
  {
  }
}
