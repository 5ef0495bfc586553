/**
 What losses and acks make of CUBIC's window and state, exactly, in integers
 (congestion_meta1/cubic.go:89-111, 130-208).
 */
module CubicExact {
  import opened Arithmetic
  import opened Cubics

  lemma {:induction false} FloorOfShare(factor: real, part: nat, total: nat, x: nat)
    requires total > 0 && factor * total as real == part as real
    ensures (factor * x as real).Floor == part * x / total
  {
    FloorOfQuotient(part * x, total);
    var q := (part * x) as real / total as real;
    assert q * total as real == (part * x) as real;
    assert factor * x as real * total as real == part as real * x as real;
    assert (q - factor * x as real) * total as real == 0.0;
    DivideBy(q - factor * x as real, total as real);
    DivideBy(factor * x as real - q, total as real);
  }

  /** So many parts of a total, of a number of bytes, rounded down. */
  function Share(part: nat, total: nat, bytes: nat): nat
    requires total > 0
  {
    part * bytes / total
  }

  /** One of n connections falls back to seven tenths of its share; for the last maximum, to seventeen twentieths. */
  lemma {:induction false} FactorsAre(n: nat)
    requires n > 0
    ensures Beta(n) * n as real == n as real - 0.3
    ensures BetaLastMax(n) * n as real == n as real - 0.15
  {
    var m := n as real;
    assert (m - 1.0 + 0.7) / m * m == m - 1.0 + 0.7;
    assert (m - 1.0 + 0.85) / m * m == m - 1.0 + 0.85;
  }

  lemma {:induction false} BackoffIs(n: nat, window: nat)
    requires n > 0
    ensures Scaled(Beta(n), window) == Share(10 * n - 3, 10 * n, window)
    ensures Scaled(BetaLastMax(n), window) == Share(20 * n - 3, 20 * n, window)
  {
    hide Beta, BetaLastMax;
    FactorsAre(n);
    assert Beta(n) * (10 * n) as real == (10 * n - 3) as real;
    FloorOfShare(Beta(n), 10 * n - 3, 10 * n, window);
    assert BetaLastMax(n) * (20 * n) as real == (20 * n - 3) as real;
    FloorOfShare(BetaLastMax(n), 20 * n - 3, 20 * n, window);
    assert Beta(n) * window as real >= 0.0 && BetaLastMax(n) * window as real >= 0.0;
  }

  /** What a loss leaves to be remembered: the window, or less if it never came near the maximum remembered before. */
  function Remembered(mss: nat, n: nat, lastMax: nat, window: nat): nat
    requires n > 0
  {
    if window + mss < lastMax then Share(20 * n - 3, 20 * n, window) else window
  }

  /**
   A loss cuts the window back by three tenths of one connection's share, rounded down, remembers
   the window or seventeen twentieths of one connection's share of it, and closes the epoch.
   */
  lemma {:induction false} LossIsExact(mss: nat, n: nat, s: State, window: nat)
    requires n > 0
    ensures var (t, w) := AfterLoss(mss, n, s, window);
            && w == Share(10 * n - 3, 10 * n, window)
            && t == s.(lastMaxCongestionWindow := Remembered(mss, n, s.lastMaxCongestionWindow, window),
                       epoch := UNSET_TIME)
  {
    hide Scaled, Beta, BetaLastMax, Share;
    BackoffIs(n, window);
  }

  /** The Reno estimate grows by alpha segments per window of acknowledged bytes, with alpha = 9 n^2 / (20 n - 3). */
  lemma {:induction false} RenoGrowthIs(mss: nat, n: nat, acked: nat, estimate: nat)
    requires n > 0 && estimate > 0
    ensures var growth, total := RenoGrowth(mss, n, acked, estimate), (20 * n - 3) * estimate;
            total * growth <= 9 * n * n * mss * acked < total * (growth + 1)
  {
    hide Alpha;
    AlphaIs(n);
    var x := Increment(acked as real, Alpha(n), mss as real, estimate as real);
    ScaledShare(acked as real, Alpha(n), mss as real, estimate as real, (20 * n - 3) as real, (9 * n * n) as real);
    IncrementNonNegative(acked as real, Alpha(n), mss as real, estimate as real);
    FloorBounds(x, 9 * n * n * mss * acked, (20 * n - 3) * estimate);
  }

  lemma {:induction false} FloorBounds(x: real, part: nat, total: nat)
    requires total > 0 && x * total as real == part as real
    ensures total * x.Floor <= part < total * (x.Floor + 1)
  {
    var f := x.Floor;
    var above, below := x - f as real, (f + 1) as real - x;
    Times(above, total as real);
    Times(below, total as real);
    assert above * total as real == (part - total * f) as real;
    assert below * total as real == (total * (f + 1) - part) as real;
  }

  lemma {:induction false} Times(x: real, d: real)
    requires d > 0.0
    ensures x >= 0.0 ==> x * d >= 0.0
    ensures x > 0.0 ==> x * d > 0.0
  {
  }

  lemma {:induction false} AlphaIs(n: nat)
    requires n > 0
    ensures Alpha(n) * (20 * n - 3) as real == (9 * n * n) as real
  {
    hide Beta;
    FactorsAre(n);
    var a, b, m := Alpha(n), Beta(n), n as real;
    assert a * (1.0 + b) == 3.0 * m * m * (1.0 - b);
    assert (1.0 + b) * m == 2.0 * m - 0.3;
    assert (1.0 - b) * m == 0.3;
    assert a * (1.0 + b) * m == a * (2.0 * m - 0.3);
    assert 3.0 * m * m * (1.0 - b) * m == 3.0 * m * m * 0.3;
    assert (20 * n - 3) as real == 10.0 * (2.0 * m - 0.3);
  }

  lemma {:induction false} ScaledShare(acked: real, alpha: real, mss: real, estimate: real, den: real, num: real)
    requires estimate > 0.0 && alpha * den == num
    ensures Increment(acked, alpha, mss, estimate) * (den * estimate) == num * mss * acked
  {
    var x := Increment(acked, alpha, mss, estimate);
    assert x * estimate == acked * alpha * mss;
    assert x * (den * estimate) == x * estimate * den;
    assert acked * alpha * mss * den == acked * mss * (alpha * den);
  }

  ghost predicate GrowsBy(mss: nat, n: nat, estimate: nat, growth: int, acked: nat) {
    (20 * n - 3) * estimate * growth <= 9 * n * n * mss * acked < (20 * n - 3) * estimate * (growth + 1)
  }

  /** This is the floor of the cube root. */
  ghost predicate IsCubeRoot(root: nat, x: int) {
    Cube(root) <= x < Cube(root + 1)
  }

  /**
   What an ack makes of the state. Outside an epoch it opens one, whose curve comes back to the larger
   of window and remembered maximum, after the floor of the cube root of their distance, in units of
   the scale; inside one it leaves the curve alone. The Reno estimate, from the window on, grows by
   its share of the acknowledged bytes, and those are counted no more.
   */
  ghost predicate EpochStep(mss: nat, n: nat, s: State, t: State, ackedBytes: nat, window: nat, eventTime: nat)
    requires mss > 0 && n > 0 && window > 0
    requires s.epoch != UNSET_TIME ==> s.estimatedTCPcongestionWindow > 0
  {
    var opens := s.epoch == UNSET_TIME;
    var estimate := if opens then window else s.estimatedTCPcongestionWindow;
    var acked := if opens then ackedBytes else s.ackedBytesCount + ackedBytes;
    && t.ackedBytesCount == 0 && t.lastMaxCongestionWindow == s.lastMaxCongestionWindow
    && GrowsBy(mss, n, estimate, t.estimatedTCPcongestionWindow - estimate, acked)
    && if opens then
         && t.epoch == eventTime
         && t.originPointCongestionWindow == Max(s.lastMaxCongestionWindow, window)
         && IsCubeRoot(t.timeToOriginPoint, SCALE / 410 / mss * Max(s.lastMaxCongestionWindow - window, 0))
       else
         && t.epoch == s.epoch && t.originPointCongestionWindow == s.originPointCongestionWindow
         && t.timeToOriginPoint == s.timeToOriginPoint
  }

  lemma {:induction false} AckTakesEpochStep(mss: nat, n: nat, s: State, ackedBytes: nat, window: nat, delayMin: nat,
                                             eventTime: nat)
    requires mss > 0 && n > 0 && window > 0
    requires s.epoch != UNSET_TIME ==> s.estimatedTCPcongestionWindow > 0
    ensures EpochStep(mss, n, s, AfterAck(mss, n, s, ackedBytes, window, delayMin, eventTime).0, ackedBytes, window,
                      eventTime)
  {
    hide CubeRoot, RenoGrowth, Elapsed, Curve;
    var t := Opened(mss, s, ackedBytes, window, eventTime);
    RenoGrowthIs(mss, n, t.ackedBytesCount, t.estimatedTCPcongestionWindow);
    assert CubeFactor(mss) == SCALE / 410 / mss;
  }

  /**
   The window after an ack, exactly: it reaches a number of bytes if and only if the Reno estimate
   does, or half of the acknowledged bytes allow it and the time since the epoch, with the minimum
   round trip, has come to where the curve reaches it.
   */
  lemma {:induction false} AckReachesIff(mss: nat, n: nat, s: State, ackedBytes: nat, window: nat, delayMin: nat,
                                         eventTime: nat, bytes: nat)
    requires mss > 0 && n > 0 && window > 0
    requires s.epoch != UNSET_TIME ==> s.estimatedTCPcongestionWindow > 0
    ensures var (t, w) := AfterAck(mss, n, s, ackedBytes, window, delayMin, eventTime);
            var acked := if s.epoch == UNSET_TIME then ackedBytes else s.ackedBytesCount + ackedBytes;
            w >= bytes <==>
              || t.estimatedTCPcongestionWindow >= bytes
              || (window + acked / 2 >= bytes
                  && Elapsed(t.epoch, eventTime, delayMin)
                     >= ReachTime(mss, t.originPointCongestionWindow, t.timeToOriginPoint, bytes))
  {
    hide CubeRoot, CubeFactor, Curve, Elapsed, RenoGrowth, ReachTime;
    var t := AfterAck(mss, n, s, ackedBytes, window, delayMin, eventTime).0;
    CurveReachesIff(mss, t.originPointCongestionWindow, t.timeToOriginPoint,
                    Elapsed(t.epoch, eventTime, delayMin), bytes);
  }

  /** The time since the epoch, in 1/1024 of a second, from whole microseconds. */
  lemma {:induction false} ElapsedIs(epoch: nat, eventTime: nat, delayMin: nat)
    requires eventTime + delayMin >= epoch
    ensures var e, microseconds := Elapsed(epoch, eventTime, delayMin), (eventTime + delayMin - epoch) / 1000;
            1_000_000 * e <= 1024 * microseconds < 1_000_000 * (e + 1)
  {
  }
}
