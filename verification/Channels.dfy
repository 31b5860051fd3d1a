/** One direction of a payment channel: what gossip says about it, what this node believes about it. */
module Channels {
  import opened Base

  /** The gossip record of one direction. `htlcMin` and `htlcMax` are the parsed HTLC limits in msat. */
  datatype Gossip = Gossip(
    scid: Scid, source: NodeId, destination: NodeId, satoshis: nat,
    active: bool, lastUpdate: nat, baseFee: nat, ppm: nat, delay: nat,
    htlcMin: nat, htlcMax: nat)

  /** The value of a channel object: gossip plus the liquidity belief. */
  datatype ChannelState = ChannelState(
    info: Gossip, liquidity: nat, timestamp: int, maxHtlc: nat, minHtlc: nat)

  /** The key of the channel map: short channel id and direction. */
  datatype ChannelId = ChannelId(scid: Scid, direction: int)

  function GetDirection(source: NodeId, destination: NodeId): (d: int)
    ensures d == 0 || d == 1
  {
    if source < destination then 0 else 1
  }

  function IdOf(g: Gossip): ChannelId {
    ChannelId(g.scid, GetDirection(g.source, g.destination))
  }

  function Opposite(id: ChannelId): ChannelId
    requires id.direction == 0 || id.direction == 1
  {
    ChannelId(id.scid, 1 - id.direction)
  }

  /** The two directions of one channel have the two different ids of its scid. */
  lemma DirectionsDiffer(source: NodeId, destination: NodeId)
    requires source != destination
    ensures GetDirection(destination, source) == 1 - GetDirection(source, destination)
  {

  }

  // ---------------------------------------------------------------- fees

  /** ceil((amount / 1000) * ppm / 1000), the way the program computes it. */
  function ProportionalFee(ppm: nat, amount: nat): nat {
    var numerator := (amount / 1000) * ppm;
    if numerator > 0 then (numerator - 1) / 1000 + 1 else 0
  }

  function ComputeFee(g: Gossip, amount: nat): nat {
    g.baseFee + ProportionalFee(g.ppm, amount)
  }

  /** Parts per million of `amount`, rounded down. */
  function PartsPerMillion(fee: nat, amount: nat): nat
    requires amount > 0
  {
    fee * 1000000 / amount
  }

  function ComputeFeePPM(g: Gossip, amount: nat): nat
    requires amount > 0
  {
    PartsPerMillion(ComputeFee(g, amount), amount)
  }

  predicate CanForward(c: ChannelState, amount: nat) {
    && c.info.active
    && c.liquidity >= amount
    && c.maxHtlc >= amount
    && c.minHtlc <= amount
  }

  function HalfCapacity(g: Gossip): nat {
    500 * g.satoshis
  }

  /** `NewChannel`: the HTLC limits come from gossip. */
  function NewChannelState(g: Gossip, liquidity: nat, timestamp: int): ChannelState {
    ChannelState(g, liquidity, timestamp, g.htlcMax, g.htlcMin)
  }

  /** The HTLC limits are those of the gossip record. */
  predicate KeepsLimits(c: ChannelState) {
    c.maxHtlc == c.info.htlcMax && c.minHtlc == c.info.htlcMin
  }

  /** The channel object of the store. The gossip record is fixed at creation; beliefs change in place. */
  class Channel {
    const info: Gossip
    var liquidity: nat
    var timestamp: int
    var maxHtlc: nat
    var minHtlc: nat

    constructor (g: Gossip, liquidity: nat, timestamp: int)
      ensures info == g && View() == NewChannelState(g, liquidity, timestamp)
    {
      info := g;
      this.liquidity := liquidity;
      this.timestamp := timestamp;
      maxHtlc := g.htlcMax;
      minHtlc := g.htlcMin;
    }

    function View(): ChannelState
      reads this
    {
      ChannelState(info, liquidity, timestamp, maxHtlc, minHtlc)
    }

    method ResetLiquidity(now: int)
      modifies this`liquidity, this`timestamp
      ensures View() == old(View()).(liquidity := HalfCapacity(info), timestamp := now)
    {
      liquidity := HalfCapacity(info);
      timestamp := now;
    }
  }
}
