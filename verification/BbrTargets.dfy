/**
 What the BBR sender's window and its phases aim at: a multiple of the bandwidth-delay product
 (congestion_meta2/bbr_sender.go:560-587, 928-930).
 */
module BbrTargets {
  import opened Arithmetic
  import opened BbrModel

  /** The round trip in use: the estimate, or the connection's minimum, or a tenth of a second. */
  function RoundTrip(s: Sender, rttMin: nat): int {
    if s.minRtt != 0 then s.minRtt else if rttMin > 0 then rttMin else 100_000_000
  }

  /** The bandwidth-delay product in whole bytes, of bits per second and nanoseconds. */
  function Product(s: Sender, bandwidth: nat, rttMin: nat): int {
    Quo(RoundTrip(s, rttMin) * bandwidth, 8_000_000_000)
  }

  /** A multiple of the product, or of the initial window while that is zero; and at least the minimum window. */
  function Aim(p: Params, s: Sender, bandwidth: nat, rttMin: nat, gain: real): int {
    var product := Product(s, bandwidth, rttMin);
    Max(Trunc(gain * (if product == 0 then p.initialWindow else product) as real), p.minWindow)
  }

  lemma {:induction false} NestedQuotient(x: nat)
    ensures x / 8 / 1_000_000_000 == x / 8_000_000_000
  {
    var y := x / 8;
    assert x == 8 * y + x % 8;
    assert y == 1_000_000_000 * (y / 1_000_000_000) + y % 1_000_000_000;
  }

  /** The product divided in two steps is the exact one, rounded once. */
  lemma {:induction false} BdpIsProduct(rtt: int, bandwidth: nat)
    ensures Bdp(rtt, bandwidth) == Quo(rtt * bandwidth, 8_000_000_000)
    ensures rtt >= 0 ==> Bdp(rtt, bandwidth) == rtt * bandwidth / 8_000_000_000
  {
    var x := rtt * bandwidth;
    if x >= 0 {
      NestedQuotient(x);
    } else {
      NestedQuotient(-x);
    }
  }

  lemma {:induction false} GainOfNothing(gain: real, x: int)
    requires gain >= 1.0
    ensures Scale(gain, x) == 0 <==> x == 0
  {
    if x > 0 {
      assert gain * x as real >= 1.0;
    } else if x < 0 {
      assert gain * -x as real >= 1.0;
      assert gain * x as real == -(gain * -x as real);
    }
  }

  /** Every target of the sender, at a gain of at least one, is that multiple. */
  lemma {:induction false} TargetIsAim(p: Params, s: Sender, bandwidth: nat, rttMin: nat, gain: real)
    requires gain >= 1.0
    ensures TargetWindow(p, s, bandwidth, rttMin, gain) == Aim(p, s, bandwidth, rttMin, gain) >= p.minWindow
  {
    hide Bdp;
    BdpIsProduct(RoundTrip(s, rttMin), bandwidth);
    GainOfNothing(gain, Product(s, bandwidth, rttMin));
  }

  /** Of the sender, an aim depends on the round-trip estimate only. */
  lemma {:induction false} SameAim(p: Params, s: Sender, t: Sender, bandwidth: nat, rttMin: nat, gain: real)
    requires s.minRtt == t.minRtt
    ensures RoundTrip(s, rttMin) == RoundTrip(t, rttMin)
    ensures Aim(p, s, bandwidth, rttMin, gain) == Aim(p, t, bandwidth, rttMin, gain)
  {
    assert Product(s, bandwidth, rttMin) == Product(t, bandwidth, rttMin);
  }
}
