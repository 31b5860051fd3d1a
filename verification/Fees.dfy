/** Fee arithmetic: monotone, close to BOLT #7 "HTLC Fees", free of uint64 wrap-around in range. */
module Fees {
  import opened Base
  import opened Channels

  /** The proportional part of BOLT #7, section "HTLC Fees". */
  function BoltProportional(ppm: nat, amount: nat): nat {
    amount * ppm / 1000000
  }

  /** The fee BOLT #7 asks for, section "HTLC Fees". */
  function BoltFee(g: Gossip, amount: nat): nat {
    g.baseFee + BoltProportional(g.ppm, amount)
  }

  lemma CeilDiv(n: nat)
    ensures var q := if n > 0 then (n - 1) / 1000 + 1 else 0;
            n <= 1000 * q < n + 1000
  {
  }

  /** A larger amount never pays a smaller fee. */
  lemma FeeMonotone(g: Gossip, x: nat, y: nat)
    requires x <= y
    ensures ComputeFee(g, x) <= ComputeFee(g, y)
  {
    assert x / 1000 <= y / 1000;
    MulMonotone(x / 1000, y / 1000, g.ppm);
  }

  /** Less than 1 msat above the exact quotient, at most 999 * ppm / 10^6 below it. */
  lemma ProportionalBounds(ppm: nat, amount: nat)
    ensures ProportionalFee(ppm, amount) * 1000000 < amount * ppm + 1000000
    ensures ProportionalFee(ppm, amount) * 1000000 + 999 * ppm >= amount * ppm
  {
    var q, r := amount / 1000, amount % 1000;
    CeilDiv(q * ppm);
    assert amount * ppm == 1000 * (q * ppm) + r * ppm by {
      assert amount == 1000 * q + r;
      assert (1000 * q + r) * ppm == 1000 * (q * ppm) + r * ppm;
    }
    MulMonotone(r, 999, ppm);
  }

  /** The whole fee is the base fee and the exact quotient, less than 1 msat above and at most 999 ppm/10^6 below. */
  lemma FeeBounds(g: Gossip, amount: nat)
    ensures ComputeFee(g, amount) * 1000000 < g.baseFee * 1000000 + amount * g.ppm + 1000000
    ensures ComputeFee(g, amount) * 1000000 + 999 * g.ppm >= g.baseFee * 1000000 + amount * g.ppm
  {
    ProportionalBounds(g.ppm, amount);
  }

  /** The fee is never more than 1 msat above the BOLT #7 fee. */
  lemma AtMostOneAbove(g: Gossip, amount: nat)
    ensures ComputeFee(g, amount) <= BoltFee(g, amount) + 1
  {
    ProportionalBounds(g.ppm, amount);
    hide ProportionalFee;
  }

  /** On whole satoshis the program charges at least the BOLT #7 fee. */
  lemma WholeSatoshisNeverUnderpay(g: Gossip, amount: nat)
    requires amount % 1000 == 0
    ensures ComputeFee(g, amount) >= BoltFee(g, amount)
  {
    var q := amount / 1000;
    CeilDiv(q * g.ppm);
    assert amount * g.ppm == 1000 * (q * g.ppm) by {
      assert amount == 1000 * q;
      assert (1000 * q) * g.ppm == 1000 * (q * g.ppm);
    }
  }

  /** Over all amounts the fee reaches the BOLT #7 fee exactly for rates up to 1001 ppm. */
  lemma UnderpaysIffRateAbove1001(g: Gossip)
    ensures (forall amount: nat :: ComputeFee(g, amount) >= BoltFee(g, amount)) <==> g.ppm <= 1001
  {
    if g.ppm <= 1001 {
      forall amount: nat ensures ComputeFee(g, amount) >= BoltFee(g, amount) {
        SmallRateNeverUnderpays(g.ppm, amount);
      }
    } else {
      assert ProportionalFee(g.ppm, 999) == 0;
      assert BoltProportional(g.ppm, 999) >= 1;
      assert ComputeFee(g, 999) < BoltFee(g, 999);
    }
  }

  lemma SmallRateNeverUnderpays(ppm: nat, amount: nat)
    requires ppm <= 1001
    ensures ProportionalFee(ppm, amount) >= BoltProportional(ppm, amount)
  {
    var q, r := amount / 1000, amount % 1000;
    var n := q * ppm;
    CeilDiv(n);
    MulMonotone(r, 999, ppm);
    assert amount * ppm == 1000 * n + r * ppm by {
      assert amount == 1000 * q + r;
      assert (1000 * q + r) * ppm == 1000 * (q * ppm) + r * ppm;
    }
  }

  // ---------------------------------------------------------------- prices

  /** The rounded-down price is within the limit exactly if the fee is below one ppm more. */
  lemma PriceLimit(fee: nat, amount: nat, maxPPM: nat)
    requires amount > 0
    ensures PartsPerMillion(fee, amount) <= maxPPM <==> fee * 1000000 < (maxPPM + 1) * amount
  {
    var n := fee * 1000000;
    var k := n / amount;
    assert k * amount <= n < (k + 1) * amount;
    if k <= maxPPM { MulMonotone(k + 1, maxPPM + 1, amount); } else { MulMonotone(maxPPM + 1, k, amount); }
  }

  /** A channel's price is within the limit exactly if what it charges is below one ppm more. */
  lemma ChannelPriceIff(g: Gossip, amount: nat, maxPPM: nat)
    requires amount > 0
    ensures ComputeFeePPM(g, amount) <= maxPPM <==> ComputeFee(g, amount) * 1000000 < (maxPPM + 1) * amount
  {
    PriceLimit(ComputeFee(g, amount), amount, maxPPM);
  }

  // ---------------------------------------------------------------- 64-bit arithmetic

  function Wrap(n: nat): nat {
    n % UINT64
  }

  /** `ComputeFee` with every intermediate result reduced modulo 2^64. */
  function ComputeFee64(g: Gossip, amount: nat): nat {
    var numerator := Wrap((amount / 1000) * g.ppm);
    var proportional := if numerator > 0 then Wrap((numerator - 1) / 1000 + 1) else 0;
    Wrap(g.baseFee + proportional)
  }

  predicate FeeFields32(g: Gossip) {
    g.baseFee < 0x1_0000_0000 && g.ppm < 0x1_0000_0000
  }

  /** With 32-bit fee fields and less than 1000 * 2^32 msat, no step wraps, and the fee fits a signed int. */
  lemma FeeDoesNotWrap(g: Gossip, amount: nat)
    requires FeeFields32(g) && amount < 1000 * 0x1_0000_0000
    ensures ComputeFee64(g, amount) == ComputeFee(g, amount)
    ensures amount + ComputeFee(g, amount) < UINT64 / 2
  {
    var n := (amount / 1000) * g.ppm;
    assert n <= 0xFFFF_FFFF * 0xFFFF_FFFF by {
      MulMonotone(amount / 1000, 0xFFFF_FFFF, g.ppm);
      MulMonotone(g.ppm, 0xFFFF_FFFF, 0xFFFF_FFFF);
    }
    SmallNumeratorDoesNotWrap(g.baseFee, n);
  }

  /** As long as the product of satoshis and rate fits 64 bits, the program's fee is the exact one modulo 2^64. */
  lemma FeeModulo(g: Gossip, amount: nat)
    requires amount / 1000 * g.ppm < UINT64
    ensures ComputeFee64(g, amount) == ComputeFee(g, amount) % UINT64
  {
    var n := amount / 1000 * g.ppm;
    var p := if n > 0 then (n - 1) / 1000 + 1 else 0;
    assert Wrap(n) == n;
    assert p <= n;
    assert Wrap(p) == p;
  }

  /** Two satoshis above the bound on the amount the product wraps, and the program charges next to nothing. */
  lemma FeeWrapsBeyond(g: Gossip)
    requires g.baseFee == 0 && g.ppm == 0xFFFF_FFFF
    ensures var amount := 1000 * 0x1_0000_0002;
            ComputeFee64(g, amount) == 4294968 && ComputeFee(g, amount) > 0x1_0000_0000 * 1000000
  {
    assert 0x1_0000_0002 * 0xFFFF_FFFF == UINT64 + 0xFFFF_FFFE;
  }

  lemma SmallNumeratorDoesNotWrap(base: nat, n: nat)
    requires base < 0x1_0000_0000 && n <= 0xFFFF_FFFF * 0xFFFF_FFFF
    ensures var p := if n > 0 then (n - 1) / 1000 + 1 else 0;
            Wrap(n) == n && Wrap(p) == p && Wrap(base + p) == base + p
            && base + p < UINT64 / 4
  {
  }
}
