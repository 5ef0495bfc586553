/**
 The CUBIC window of congestion_meta1/cubic.go (section 4.2 of RFC 9438): fixed-point
 arithmetic with a scale of 2^40, a truncated cube root, and times in 1/1024 of a second.

 The backoff and growth factors are exact reals, and the cube root is the floor cube root.
 The package's maximum datagram size is a parameter, because the library constant behind it
 is not part of this model.
 */
module Cubics {
  import opened Arithmetic

  const SCALE := 0x100_0000_0000  // 2^40
  const CUBE_CONGESTION_WINDOW_SCALE := 410
  const BETA := 0.7
  const BETA_LAST_MAX := 0.85
  const UNSET_TIME := 0

  datatype State = State(
    epoch: nat, lastMaxCongestionWindow: nat, ackedBytesCount: nat, estimatedTCPcongestionWindow: nat,
    originPointCongestionWindow: nat, timeToOriginPoint: nat, lastTargetCongestionWindow: int)

  const CLEARED := State(UNSET_TIME, 0, 0, 0, 0, 0, 0)

  // ---------- Factors ----------

  /** The backoff factor of n emulated connections. */
  function Beta(n: nat): (b: real)
    requires n > 0
    ensures 0.0 < b < 1.0
  {
    BackoffInRange(n, BETA);
    (n as real - 1.0 + BETA) / n as real
  }

  function BetaLastMax(n: nat): (b: real)
    requires n > 0
    ensures 0.0 < b < 1.0
  {
    BackoffInRange(n, BETA_LAST_MAX);
    (n as real - 1.0 + BETA_LAST_MAX) / n as real
  }

  lemma {:induction false} BackoffInRange(n: nat, b: real)
    requires n > 0 && 0.0 < b < 1.0
    ensures 0.0 < (n as real - 1.0 + b) / n as real < 1.0
  {
    var x := (n as real - 1.0 + b) / n as real;
    assert x * n as real == n as real - 1.0 + b;
  }

  function Alpha(n: nat): (a: real)
    requires n > 0
    ensures a > 0.0
  {
    var b := Beta(n);
    3.0 * n as real * n as real * (1.0 - b) / (1.0 + b)
  }

  /** A factor applied to a number of bytes. */
  function Scaled(factor: real, bytes: nat): (r: nat)
    requires factor >= 0.0
    ensures factor <= 1.0 ==> r <= bytes
  {
    assert factor * bytes as real >= 0.0;
    assert factor <= 1.0 ==> factor * bytes as real <= bytes as real;
    Trunc(factor * bytes as real)
  }

  // ---------- The curve ----------

  function CubeFactor(mss: nat): nat
    requires mss > 0
  {
    SCALE / CUBE_CONGESTION_WINDOW_SCALE / mss
  }

  function Cube(x: nat): nat { x * x * x }

  /** The largest number, from `r` on, whose cube does not exceed x. */
  function CubeRootFrom(x: nat, r: nat): (root: nat)
    requires Cube(r) <= x
    ensures Cube(root) <= x < Cube(root + 1)
    decreases x - r
  {
    CubeGrows(r);
    if Cube(r + 1) > x then r else CubeRootFrom(x, r + 1)
  }

  lemma {:induction false} CubeGrows(r: nat)
    ensures Cube(r + 1) > Cube(r) && Cube(r) >= r
  {
    assert Cube(r + 1) == Cube(r) + 3 * (r * r) + 3 * r + 1;
    if r > 0 {
      assert r * r >= r;
      assert Cube(r) >= r * r;
    }
  }

  function CubeRoot(x: nat): (root: nat)
    ensures Cube(root) <= x < Cube(root + 1)
  {
    CubeRootFrom(x, 0)
  }

  /** Time since the epoch, with the round trip, in 1/1024 of a second. */
  function Elapsed(epoch: nat, eventTime: nat, delayMin: nat): int {
    Quo(Quo(eventTime + delayMin - epoch, 1000) * 1024, 1_000_000)
  }

  function Abs(x: int): nat { if x < 0 then -x else x }

  /** The distance from the origin point of the curve. */
  function Delta(mss: nat, offset: nat): nat {
    CUBE_CONGESTION_WINDOW_SCALE * Cube(offset) * mss / SCALE
  }

  function Curve(mss: nat, origin: int, timeToOrigin: nat, elapsed: int): int {
    var delta := Delta(mss, Abs(timeToOrigin - elapsed));
    if elapsed > timeToOrigin then origin + delta else origin - delta
  }

  // ---------- The operations ----------

  function StartEpoch(mss: nat, s: State, ackedBytes: nat, window: nat, eventTime: nat): State
    requires mss > 0
  {
    var t := s.(epoch := eventTime, ackedBytesCount := ackedBytes, estimatedTCPcongestionWindow := window);
    if s.lastMaxCongestionWindow <= window
    then t.(timeToOriginPoint := 0, originPointCongestionWindow := window)
    else t.(timeToOriginPoint := CubeRoot(CubeFactor(mss) * (s.lastMaxCongestionWindow - window)),
            originPointCongestionWindow := s.lastMaxCongestionWindow)
  }

  function Increment(acked: real, alpha: real, mss: real, estimate: real): real
    requires estimate > 0.0
  {
    acked * alpha * mss / estimate
  }

  /** How far the equivalent Reno window grows. */
  function RenoGrowth(mss: nat, n: nat, acked: nat, estimate: nat): (growth: nat)
    requires n > 0 && estimate > 0
  {
    IncrementNonNegative(acked as real, Alpha(n), mss as real, estimate as real);
    Trunc(Increment(acked as real, Alpha(n), mss as real, estimate as real))
  }

  lemma {:induction false} IncrementNonNegative(a: real, b: real, c: real, d: real)
    requires a >= 0.0 && b >= 0.0 && c >= 0.0 && d > 0.0
    ensures Increment(a, b, c, d) >= 0.0
  {
    assert a * b >= 0.0;
    assert a * b * c >= 0.0;
  }

  /** The counters and the epoch as an acknowledgement finds them. */
  function Opened(mss: nat, s: State, ackedBytes: nat, window: nat, eventTime: nat): State
    requires mss > 0
  {
    if s.epoch == UNSET_TIME then StartEpoch(mss, s, ackedBytes, window, eventTime)
    else s.(ackedBytesCount := s.ackedBytesCount + ackedBytes)
  }

  /** The cubic window, limited to half of the acknowledged bytes above the current one. */
  function CubicTarget(mss: nat, s: State, window: nat, delayMin: nat, eventTime: nat): int {
    Min(Curve(mss, s.originPointCongestionWindow, s.timeToOriginPoint, Elapsed(s.epoch, eventTime, delayMin)),
        window + s.ackedBytesCount / 2)
  }

  function AfterAck(mss: nat, n: nat, s: State, ackedBytes: nat, window: nat, delayMin: nat, eventTime: nat): (State,
                    nat)
    requires mss > 0 && n > 0 && window > 0
    requires s.epoch != UNSET_TIME ==> s.estimatedTCPcongestionWindow > 0
  {
    var t := Opened(mss, s, ackedBytes, window, eventTime);
    var target := CubicTarget(mss, t, window, delayMin, eventTime);
    var estimate := t.estimatedTCPcongestionWindow
        + RenoGrowth(mss, n, t.ackedBytesCount, t.estimatedTCPcongestionWindow);
    (t.(estimatedTCPcongestionWindow := estimate, ackedBytesCount := 0, lastTargetCongestionWindow := target),
     Max(target, estimate))
  }

  function AfterLoss(mss: nat, n: nat, s: State, window: nat): (State, nat)
    requires n > 0
  {
    (s.(lastMaxCongestionWindow := if window + mss < s.lastMaxCongestionWindow
                                   then Scaled(BetaLastMax(n), window) else window,
        epoch := UNSET_TIME),
     Scaled(Beta(n), window))
  }

  class Cubic {
    const mss: nat
    var numConnections: nat
    var epoch: nat
    var lastMaxCongestionWindow: nat
    var ackedBytesCount: nat
    var estimatedTCPcongestionWindow: nat
    var originPointCongestionWindow: nat
    var timeToOriginPoint: nat
    var lastTargetCongestionWindow: int

    ghost predicate Valid()
      reads this
    {
      mss > 0 && numConnections > 0
    }

    ghost function Model(): State
      reads this
    {
      State(epoch, lastMaxCongestionWindow, ackedBytesCount, estimatedTCPcongestionWindow,
            originPointCongestionWindow, timeToOriginPoint, lastTargetCongestionWindow)
    }

    constructor (mss: nat)
      requires mss > 0
      ensures Valid() && Model() == CLEARED && this.mss == mss && numConnections == 1
    {
      this.mss := mss;
      numConnections := 1;
      new;
      Reset();
    }

    method Reset()
      modifies this
      ensures Model() == CLEARED && numConnections == old(numConnections)
    {
      epoch := UNSET_TIME;
      lastMaxCongestionWindow := 0;
      ackedBytesCount := 0;
      estimatedTCPcongestionWindow := 0;
      originPointCongestionWindow := 0;
      timeToOriginPoint := 0;
      lastTargetCongestionWindow := 0;
    }

    method OnApplicationLimited()
      modifies `epoch
      ensures Model() == old(Model()).(epoch := UNSET_TIME)
    {
      epoch := UNSET_TIME;
    }

    method CongestionWindowAfterPacketLoss(currentCongestionWindow: nat) returns (window: nat)
      requires Valid()
      modifies this
      ensures Valid() && numConnections == old(numConnections)
      ensures (Model(), window) == AfterLoss(mss, numConnections, old(Model()), currentCongestionWindow)
    {
      if currentCongestionWindow + mss < lastMaxCongestionWindow {
        lastMaxCongestionWindow := Scaled(BetaLastMax(numConnections), currentCongestionWindow);
      } else {
        lastMaxCongestionWindow := currentCongestionWindow;
      }
      epoch := UNSET_TIME;
      return Scaled(Beta(numConnections), currentCongestionWindow);
    }

    method CongestionWindowAfterAck(ackedBytes: nat, currentCongestionWindow: nat, delayMin: nat, eventTime: nat)
      returns (window: int)
      requires Valid() && currentCongestionWindow > 0
      requires epoch != UNSET_TIME ==> estimatedTCPcongestionWindow > 0
      modifies this
      ensures Valid() && numConnections == old(numConnections)
      ensures (Model(), window)
           == AfterAck(mss, numConnections, old(Model()), ackedBytes, currentCongestionWindow, delayMin, eventTime)
    {
      hide CubeRoot, RenoGrowth, Elapsed, Delta;
      MaybeStartEpoch(ackedBytes, currentCongestionWindow, eventTime);
      var elapsedTime := Elapsed(epoch, eventTime, delayMin);
      var offset := timeToOriginPoint - elapsedTime;
      if offset < 0 {
        offset := -offset;
      }
      var deltaCongestionWindow := Delta(mss, offset);
      var target: int;
      if elapsedTime > timeToOriginPoint {
        target := originPointCongestionWindow + deltaCongestionWindow;
      } else {
        target := originPointCongestionWindow - deltaCongestionWindow;
      }
      target := Min(target, currentCongestionWindow + ackedBytesCount / 2);
      estimatedTCPcongestionWindow := estimatedTCPcongestionWindow
        + RenoGrowth(mss, numConnections, ackedBytesCount, estimatedTCPcongestionWindow);
      ackedBytesCount := 0;
      lastTargetCongestionWindow := target;
      if target < estimatedTCPcongestionWindow {
        target := estimatedTCPcongestionWindow;
      }
      return target;
    }

    /** The counting part of the method above: the first ack after a loss starts an epoch. */
    method MaybeStartEpoch(ackedBytes: nat, currentCongestionWindow: nat, eventTime: nat)
      requires Valid()
      modifies this
      ensures Valid() && numConnections == old(numConnections)
      ensures Model() == Opened(mss, old(Model()), ackedBytes, currentCongestionWindow, eventTime)
    {
      hide CubeRoot, CubeFactor;
      ackedBytesCount := ackedBytesCount + ackedBytes;
      if epoch == UNSET_TIME {
        epoch := eventTime;
        ackedBytesCount := ackedBytes;
        estimatedTCPcongestionWindow := currentCongestionWindow;
        if lastMaxCongestionWindow <= currentCongestionWindow {
          timeToOriginPoint := 0;
          originPointCongestionWindow := currentCongestionWindow;
        } else {
          timeToOriginPoint := CubeRoot(CubeFactor(mss) * (lastMaxCongestionWindow - currentCongestionWindow));
          originPointCongestionWindow := lastMaxCongestionWindow;
        }
      }
    }
  }

  // ---------- Properties of the curve ----------

  lemma {:induction false} CubeMonotone(x: nat, y: nat)
    requires x <= y
    ensures Cube(x) <= Cube(y)
  {
    assert x * x <= y * y;
    assert x * x * x <= y * y * x <= y * y * y;
  }

  lemma {:induction false} DeltaMonotone(mss: nat, x: nat, y: nat)
    requires x <= y
    ensures Delta(mss, x) <= Delta(mss, y)
  {
    CubeMonotone(x, y);
    assert CUBE_CONGESTION_WINDOW_SCALE * Cube(x) * mss <= CUBE_CONGESTION_WINDOW_SCALE * Cube(y) * mss;
    DivMonotone(CUBE_CONGESTION_WINDOW_SCALE * Cube(x) * mss, CUBE_CONGESTION_WINDOW_SCALE * Cube(y) * mss, SCALE);
  }

  /** The curve never falls as time passes, on either side of its origin. */
  lemma {:induction false} CurveMonotone(mss: nat, origin: int, timeToOrigin: nat, t1: int, t2: int)
    requires t1 <= t2
    ensures Curve(mss, origin, timeToOrigin, t1) <= Curve(mss, origin, timeToOrigin, t2)
  {
    var d1, d2 := Abs(timeToOrigin - t1), Abs(timeToOrigin - t2);
    if d1 <= d2 {
      DeltaMonotone(mss, d1, d2);
    } else {
      DeltaMonotone(mss, d2, d1);
    }
  }

  lemma {:induction false} ElapsedMonotone(epoch: nat, t1: nat, d1: nat, t2: nat, d2: nat)
    requires t1 + d1 <= t2 + d2
    ensures Elapsed(epoch, t1, d1) <= Elapsed(epoch, t2, d2)
    ensures t1 + d1 >= epoch ==> Elapsed(epoch, t1, d1) >= 0
  {
    QuoMonotone(t1 + d1 - epoch, t2 + d2 - epoch, 1000);
    QuoMonotone(Quo(t1 + d1 - epoch, 1000) * 1024, Quo(t2 + d2 - epoch, 1000) * 1024, 1_000_000);
  }

  /** The curve stays below its origin before the time to the origin, meets it then, and rises above it after. */
  lemma {:induction false} CurveThroughOrigin(mss: nat, origin: int, timeToOrigin: nat, elapsed: int)
    ensures elapsed <= timeToOrigin ==> Curve(mss, origin, timeToOrigin, elapsed) <= origin
    ensures elapsed >= timeToOrigin ==> Curve(mss, origin, timeToOrigin, elapsed) >= origin
  {
    CurveAtStart(mss, origin, timeToOrigin);
  }

  /** The truncated cube root keeps the dip of the curve within the distance to the last maximum. */
  lemma {:induction false} DipWithinDistance(mss: nat, distance: nat)
    requires mss > 0
    ensures Delta(mss, CubeRoot(CubeFactor(mss) * distance)) <= distance
  {
    hide CubeRoot;
    var cube := Cube(CubeRoot(CubeFactor(mss) * distance));
    var perSegment := SCALE / CUBE_CONGESTION_WINDOW_SCALE;
    assert CubeFactor(mss) * mss <= perSegment;
    assert CUBE_CONGESTION_WINDOW_SCALE * perSegment <= SCALE;
    DipArithmetic(mss, distance, cube, CubeFactor(mss), perSegment);
    DivMonotone(CUBE_CONGESTION_WINDOW_SCALE * cube * mss, SCALE * distance, SCALE);
    assert SCALE * distance / SCALE == distance;
  }

  lemma {:induction false} DipArithmetic(mss: nat, distance: nat, cube: nat, factor: nat, perSegment: nat)
    requires cube <= factor * distance && factor * mss <= perSegment
    requires CUBE_CONGESTION_WINDOW_SCALE * perSegment <= SCALE
    ensures CUBE_CONGESTION_WINDOW_SCALE * cube * mss <= SCALE * distance
  {
    assert cube * mss <= factor * distance * mss;
    assert factor * distance * mss == factor * mss * distance;
    assert factor * mss * distance <= perSegment * distance;
    assert CUBE_CONGESTION_WINDOW_SCALE * perSegment * distance <= SCALE * distance;
  }

  /** Every curve starts at or above the window of its epoch, and so never goes below it. */
  lemma {:induction false} CurveStartsAtWindow(mss: nat, s: State, ackedBytes: nat, window: nat, eventTime: nat,
                                               elapsed: int)
    requires mss > 0 && elapsed >= 0
    ensures var t := StartEpoch(mss, s, ackedBytes, window, eventTime);
            Curve(mss, t.originPointCongestionWindow, t.timeToOriginPoint, elapsed) >= window
  {
    hide CubeRoot, CubeFactor, Curve;
    var t := StartEpoch(mss, s, ackedBytes, window, eventTime);
    CurveMonotone(mss, t.originPointCongestionWindow, t.timeToOriginPoint, 0, elapsed);
    CurveAtStart(mss, t.originPointCongestionWindow, t.timeToOriginPoint);
    if s.lastMaxCongestionWindow > window {
      DipWithinDistance(mss, s.lastMaxCongestionWindow - window);
    }
  }

  lemma {:induction false} CurveAtStart(mss: nat, origin: int, timeToOrigin: nat)
    ensures Curve(mss, origin, timeToOrigin, 0) == origin - Delta(mss, timeToOrigin)
    ensures Delta(mss, 0) == 0
  {
  }

  // ---------- Acknowledgements ----------

  /**
   Within an epoch the window is covered: by the Reno estimate, or by the curve at the latest
   time, event time plus round trip, that it has been evaluated at.
   */
  ghost predicate Covered(mss: nat, s: State, window: nat, latest: nat) {
    s.epoch != UNSET_TIME ==>
      window <= s.estimatedTCPcongestionWindow
      || window <= Curve(mss, s.originPointCongestionWindow, s.timeToOriginPoint, Elapsed(s.epoch, latest, 0))
  }

  lemma {:induction false} CoveredLater(mss: nat, s: State, window: nat, latest: nat, later: nat)
    requires Covered(mss, s, window, latest) && latest <= later
    ensures Covered(mss, s, window, later)
  {
    hide Curve, Elapsed;
    ElapsedMonotone(s.epoch, latest, 0, later, 0);
    CurveMonotone(mss, s.originPointCongestionWindow, s.timeToOriginPoint,
                  Elapsed(s.epoch, latest, 0), Elapsed(s.epoch, later, 0));
  }

  /** An ack never shrinks the window, as long as event time plus round trip does not go back. */
  lemma {:induction false} AckNeverShrinks(mss: nat, n: nat, s: State, ackedBytes: nat, window: nat, delayMin: nat,
                                           eventTime: nat, latest: nat)
    requires mss > 0 && n > 0 && window > 0 && eventTime != UNSET_TIME
    requires s.epoch != UNSET_TIME ==> s.estimatedTCPcongestionWindow > 0
    requires Covered(mss, s, window, latest) && latest <= eventTime + delayMin
    ensures var (t, w) := AfterAck(mss, n, s, ackedBytes, window, delayMin, eventTime);
            && w >= window && t.epoch != UNSET_TIME && t.estimatedTCPcongestionWindow > 0
            && Covered(mss, t, w, eventTime + delayMin)
  {
    hide CubeRoot, CubeFactor, Curve, Elapsed, RenoGrowth;
    var t := Opened(mss, s, ackedBytes, window, eventTime);
    ElapsedMonotone(t.epoch, latest, 0, eventTime, delayMin);
    ElapsedMonotone(t.epoch, eventTime, delayMin, eventTime + delayMin, 0);
    ElapsedMonotone(t.epoch, eventTime + delayMin, 0, eventTime, delayMin);
    CurveMonotone(mss, t.originPointCongestionWindow, t.timeToOriginPoint,
                  Elapsed(t.epoch, latest, 0), Elapsed(t.epoch, eventTime, delayMin));
  }

  /** The farthest offset from the origin at which the curve is within this many bytes of it. */
  function Reach(mss: nat, distance: nat): (offset: nat)
    requires mss > 0
  {
    CubeRoot(((distance + 1) * SCALE - 1) / (CUBE_CONGESTION_WINDOW_SCALE * mss))
  }

  lemma {:induction false} ReachIsFarthest(mss: nat, distance: nat, offset: nat)
    requires mss > 0
    ensures Delta(mss, offset) <= distance <==> offset <= Reach(mss, distance)
  {
    hide CubeRoot;
    var d, x := CUBE_CONGESTION_WINDOW_SCALE * mss, (distance + 1) * SCALE - 1;
    DeltaWithin(mss, distance, Cube(offset));
    QuotientReaches(x, d, Cube(offset));
    var root := Reach(mss, distance);
    if offset <= root { CubeMonotone(offset, root); } else { CubeMonotone(root + 1, offset); }
  }

  lemma {:induction false} DeltaWithin(mss: nat, distance: nat, cube: nat)
    requires mss > 0
    ensures CUBE_CONGESTION_WINDOW_SCALE * cube * mss / SCALE <= distance
       <==> CUBE_CONGESTION_WINDOW_SCALE * mss * cube <= (distance + 1) * SCALE - 1
  {
    var y := CUBE_CONGESTION_WINDOW_SCALE * cube * mss;
    assert y == CUBE_CONGESTION_WINDOW_SCALE * mss * cube;
    assert y == SCALE * (y / SCALE) + y % SCALE;
  }

  /** The least time, in 1/1024 of a second since the epoch, at which the curve reaches the window. */
  function ReachTime(mss: nat, origin: nat, timeToOrigin: nat, window: nat): int
    requires mss > 0
  {
    if window > origin then timeToOrigin + Reach(mss, window - origin - 1) + 1
    else timeToOrigin - Reach(mss, origin - window)
  }

  lemma {:induction false} CurveReachesIff(mss: nat, origin: nat, timeToOrigin: nat, elapsed: int, window: nat)
    requires mss > 0
    ensures Curve(mss, origin, timeToOrigin, elapsed) >= window <==>
        elapsed >= ReachTime(mss, origin, timeToOrigin, window)
  {
    hide Reach, Delta;
    var offset := Abs(timeToOrigin - elapsed);
    if window > origin {
      ReachIsFarthest(mss, window - origin - 1, offset);
    } else {
      ReachIsFarthest(mss, origin - window, offset);
    }
  }

  /**
   Exactly when an ack keeps the window, told from the state it finds: outside an epoch always;
   inside one, if the Reno estimate grows to the window, or the time since the epoch, with the
   minimum round trip, has come to where the curve reaches it.
   */
  lemma {:induction false} AckKeepsWindowIff(mss: nat, n: nat, s: State, ackedBytes: nat, window: nat, delayMin: nat,
                                             eventTime: nat)
    requires mss > 0 && n > 0 && window > 0
    requires s.epoch != UNSET_TIME ==> s.estimatedTCPcongestionWindow > 0
    ensures AfterAck(mss, n, s, ackedBytes, window, delayMin, eventTime).1 >= window <==>
        KeepsWindow(mss, n, s, ackedBytes, window, delayMin, eventTime)
  {
    hide CubeRoot, CubeFactor, Curve, Elapsed, RenoGrowth, ReachTime;
    CurveReachesIff(mss, s.originPointCongestionWindow, s.timeToOriginPoint,
                    Elapsed(s.epoch, eventTime, delayMin), window);
  }

  predicate KeepsWindow(mss: nat, n: nat, s: State, ackedBytes: nat, window: nat, delayMin: nat, eventTime: nat)
    requires mss > 0 && n > 0
    requires s.epoch != UNSET_TIME ==> s.estimatedTCPcongestionWindow > 0
  {
    || s.epoch == UNSET_TIME
    || s.estimatedTCPcongestionWindow
         + RenoGrowth(mss, n, s.ackedBytesCount + ackedBytes, s.estimatedTCPcongestionWindow) >= window
    || Elapsed(s.epoch, eventTime, delayMin)
         >= ReachTime(mss, s.originPointCongestionWindow, s.timeToOriginPoint, window)
  }

  /**
   The hypothesis on time is needed: the curve is evaluated at event time plus minimum round
   trip. Two packets of 1252 bytes are acknowledged a millisecond apart, in an epoch that the
   first one starts at a window of 32 packets; between them the minimum round trip falls from a
   second to 20 milliseconds, and the window shrinks.
   */
  lemma {:induction false} ShrinksWhenRttDrops(s: State, eventTime: nat)
    requires s.epoch == UNSET_TIME && s.lastMaxCongestionWindow <= 40_064 && eventTime > 0
    ensures var (t, w) := AfterAck(1252, 1, s, 1252, 40_064, 1_000_000_000, eventTime);
            && w == 40_565 && t.epoch != UNSET_TIME && t.estimatedTCPcongestionWindow > 0
            && 40_064 <= AfterAck(1252, 1, t, 1252, w, 20_000_000, eventTime + 1_000_000).1 < w
  {
    hide CubeRoot, RenoGrowth, Elapsed, Delta;
    RenoGrowthBound(1252, 1252, 40_064);
    FirstElapsed(eventTime);
    RenoGrowthSmall(40_064);
    var t := AfterAck(1252, 1, s, 1252, 40_064, 1_000_000_000, eventTime).0;
    RenoGrowthSmall(t.estimatedTCPcongestionWindow);
  }

  lemma {:induction false} FirstElapsed(eventTime: nat)
    ensures Elapsed(eventTime, eventTime, 1_000_000_000) == 1024 && Delta(1252, 1024) == 501
    ensures Elapsed(eventTime, eventTime + 1_000_000, 20_000_000) == 21 && Delta(1252, 21) == 0
  {
    assert Cube(1024) == 0x4000_0000;
    assert Cube(21) == 9261;
  }

  /**
   The hypothesis that the window is covered is needed too: an epoch that an ack of one byte
   starts at two packets of 1252 bytes does not keep a window of 3000 bytes.
   */
  lemma {:induction false} UncoveredWindowFalls(eventTime: nat)
    requires eventTime > 0
    ensures var (t, w) := AfterAck(1252, 1, CLEARED, 1, 2504, 20_000_000, eventTime);
            && w == 2504 && t.epoch != UNSET_TIME && t.estimatedTCPcongestionWindow > 0
            && AfterAck(1252, 1, t, 1, 3000, 20_000_000, eventTime).1 == 2504
  {
    hide CubeRoot, RenoGrowth, Elapsed, Delta;
    ShortElapsed(eventTime);
    OneByteGrowsNothing();
  }

  lemma {:induction false} ShortElapsed(eventTime: nat)
    ensures Elapsed(eventTime, eventTime, 20_000_000) == 20 && Delta(1252, 20) == 0
  {
    assert Cube(20) == 8000;
  }

  lemma {:induction false} OneByteGrowsNothing()
    ensures RenoGrowth(1252, 1, 1, 2504) == 0
  {
    assert Alpha(1) <= 1.0;
    QuotientBelow(1.0 * Alpha(1) * 1252.0, 2504.0, 0.5);
  }

  /** One packet grows an estimate of 32 packets by less than a twentieth of a packet. */
  lemma {:induction false} RenoGrowthSmall(estimate: nat)
    requires estimate >= 40_064
    ensures RenoGrowth(1252, 1, 1252, estimate) <= 40
  {
    assert Alpha(1) <= 1.0;
    var x := 1252.0 * Alpha(1) * 1252.0;
    assert x <= 1252.0 * 1252.0 <= estimate as real * 40.0;
    QuotientBelow(x, estimate as real, 40.0);
  }

  lemma {:induction false} RenoGrowthBound(mss: nat, acked: nat, estimate: nat)
    requires estimate > 0 && acked <= estimate
    ensures RenoGrowth(mss, 1, acked, estimate) <= mss
  {
    hide Increment;
    assert Alpha(1) <= 1.0;
    IncrementBelow(acked as real, Alpha(1), mss as real, estimate as real);
  }

  lemma {:induction false} IncrementBelow(a: real, b: real, c: real, d: real)
    requires 0.0 <= a <= d && 0.0 <= b <= 1.0 && c >= 0.0 && d > 0.0
    ensures Increment(a, b, c, d) <= c
  {
    assert a * b <= a;
    assert a * b * c <= d * c;
    QuotientBelow(a * b * c, d, c);
  }

  lemma {:induction false} QuotientBelow(x: real, d: real, bound: real)
    requires d > 0.0 && x <= d * bound
    ensures x / d <= bound
  {
    assert x / d * d == x;
  }

  /**
   The fixed-point delta is the cubic C t^3, with C = 410/1024 segments per cubed second and
   t = offset/1024 seconds, rounded down to whole bytes.
   */
  lemma {:induction false} DeltaIsCubic(mss: nat, offset: nat)
    ensures var t := offset as real / 1024.0;
            Delta(mss, offset) == (410.0 / 1024.0 * (t * t * t) * mss as real).Floor
  {
    var o, m := offset as real, mss as real;
    var t := o / 1024.0;
    var x := CUBE_CONGESTION_WINDOW_SCALE * Cube(offset) * mss;
    assert t * t * t == o * o * o / 1073741824.0;
    assert Cube(offset) as real == o * o * o;
    assert x as real == 410.0 * (o * o * o) * m;
    assert 410.0 / 1024.0 * (t * t * t) * m == x as real / SCALE as real;
    FloorOfQuotient(x, SCALE);
  }

  lemma {:induction false} FloorOfQuotient(x: nat, d: nat)
    requires d > 0
    ensures (x as real / d as real).Floor == x / d
  {
    var q, e, k := x as real / d as real, d as real, x / d;
    assert q * e == x as real;
    assert x == k * d + x % d;
    assert x as real == k as real * e + (x % d) as real;
    DivideBy(q - k as real, e);
    DivideBy(k as real + 1.0 - q, e);
  }
}
