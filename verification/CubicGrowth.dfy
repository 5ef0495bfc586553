/**
 By how much the window of the CUBIC and NewReno sender moves: a datagram per ack in slow start, a
 datagram per window of acks in Reno's congestion avoidance, and the exact cuts of losses and
 timeouts (congestion_meta1/cubic_sender.go:174-285, cubic.go:130-140).
 */
module CubicGrowth {
  import opened Arithmetic
  import opened Cubics
  import opened CubicExact
  import opened CubicSenders

  // ---------- One ack ----------

  /** The flight uses the window up to three datagrams, or in slow start more than half of it. */
  predicate InUse(s: Sender, inFlight: nat) {
    || inFlight + 3 * s.maxDatagramSize >= s.congestionWindow
    || (s.congestionWindow < s.slowStartThreshold && 2 * inFlight > s.congestionWindow)
  }

  lemma {:induction false} LimitedIffInUse(s: Sender, inFlight: nat)
    ensures IsCwndLimited(s, inFlight) <==> InUse(s, inFlight)
  {
  }

  /** Something sent after the last cut is acknowledged, with this packet. */
  predicate AcksPastCut(s: Sender, packetNumber: nat) {
    packetNumber > s.largestSentAtLastCutback || s.largestAckedPacketNumber > s.largestSentAtLastCutback
  }

  /** The ack may grow the window: something sent after the last cut is acknowledged, and the window is in use. */
  predicate MayGrow(s: Sender, packetNumber: nat, inFlight: nat) {
    && AcksPastCut(s, packetNumber) && InUse(s, inFlight) && s.congestionWindow < 20_000 * s.maxDatagramSize
  }

  /**
   How an ack moves the window: not at all if it may not grow; by one datagram in slow start; in
   Reno's congestion avoidance by one datagram when a window of packets has been counted; and to
   CUBIC's window otherwise, up to the maximum. CUBIC's state moves with it, and its epoch is closed
   by an ack that finds the window unused.
   */
  ghost predicate AckStep(p: Params, s: Sender, t: Sender, a: Action)
    requires ParamsOk(p) && Ready(s) && a.Ack?
  {
    if !MayGrow(s, a.packetNumber, a.priorInFlight) then
      && t.congestionWindow == s.congestionWindow && t.numAckedPackets == s.numAckedPackets
      && t.cubic == if AcksPastCut(s, a.packetNumber) && !InUse(s, a.priorInFlight)
                    then s.cubic.(epoch := Cubics.UNSET_TIME) else s.cubic
    else if s.congestionWindow < s.slowStartThreshold then
      && t.congestionWindow == s.congestionWindow + s.maxDatagramSize && t.numAckedPackets == s.numAckedPackets
      && t.cubic == s.cubic
    else if p.reno then
      t.cubic == s.cubic &&
      if (s.numAckedPackets + 2) * s.maxDatagramSize <= s.congestionWindow
      then t.congestionWindow == s.congestionWindow && t.numAckedPackets == s.numAckedPackets + 1
      else t.congestionWindow == s.congestionWindow + s.maxDatagramSize && t.numAckedPackets == 0
    else
      var (cubic, window) :=
        AfterAck(p.mss, p.numConnections, s.cubic, a.ackedBytes, s.congestionWindow, a.minRtt, a.eventTime);
      t.cubic == cubic && t.congestionWindow == Min(20_000 * s.maxDatagramSize, window)
  }

  lemma {:induction false} AckMovesWindow(p: Params, s: Sender, a: Action)
    requires ParamsOk(p) && Ready(s) && a.Ack?
    ensures AckStep(p, s, Apply(p, s, a), a)
    ensures Apply(p, s, a).maxDatagramSize == s.maxDatagramSize
    ensures Apply(p, s, a).slowStartThreshold == s.slowStartThreshold
  {
    hide AfterAck, IsCwndLimited, InUse;
    var noted := s.(largestAckedPacketNumber := Max(a.packetNumber, s.largestAckedPacketNumber));
    LimitedIffInUse(noted, a.priorInFlight);
    SameUse(s, noted, a.priorInFlight);
    QuotientReaches(s.congestionWindow, s.maxDatagramSize, s.numAckedPackets + 2);
  }

  lemma {:induction false} SameUse(s: Sender, t: Sender, inFlight: nat)
    requires t == s.(largestAckedPacketNumber := t.largestAckedPacketNumber)
    ensures InUse(s, inFlight) == InUse(t, inFlight)
  {
  }

  // ---------- Stretches of acks ----------

  /** Action k is an ack that may grow the window. */
  ghost predicate GrowingAck(p: Params, run: seq<Action>, k: nat)
    requires ParamsOk(p) && ValidRun(run)
  {
    && k < |run| && run[k].Ack?
    && MayGrow(Before(p, run, k), run[k].packetNumber, run[k].priorInFlight)
  }

  /** In slow start the window grows by a datagram with every such ack. */
  lemma {:induction false} SlowStartGrows(p: Params, run: seq<Action>, i: nat, j: nat)
    requires ParamsOk(p) && ValidRun(run) && i <= j <= |run|
    requires forall k :: i <= k < j ==> GrowingAck(p, run, k) && InSlowStart(Before(p, run, k))
    ensures var s, t := Before(p, run, i), Before(p, run, j);
            && t.congestionWindow == s.congestionWindow + (j - i) * s.maxDatagramSize
            && t.maxDatagramSize == s.maxDatagramSize
    decreases j - i
  {
    hide Before, Apply, ValidRun, Ready, Invariant, MayGrow;
    if i < j {
      SlowStartGrows(p, run, i, j - 1);
      BeforeStep(p, run, j - 1);
      AckMovesWindow(p, Before(p, run, j - 1), run[j - 1]);
    }
  }

  /**
   In Reno's congestion avoidance the window grows by one datagram per window of acks: it stays until
   as many packets have been counted as it holds datagrams, and the last of them adds one.
   */
  lemma {:induction false} RenoGrows(p: Params, run: seq<Action>, i: nat, j: nat)
    requires ParamsOk(p) && ValidRun(run) && i < j <= |run| && p.reno
    requires forall k :: i <= k < j ==> GrowingAck(p, run, k) && !InSlowStart(Before(p, run, k))
    requires Before(p, run, i).numAckedPackets + (j - i)
          <= Max(Before(p, run, i).numAckedPackets + 1,
                 Before(p, run, i).congestionWindow / Before(p, run, i).maxDatagramSize)
    ensures var s, t := Before(p, run, i), Before(p, run, j);
            && t.maxDatagramSize == s.maxDatagramSize
            && if s.numAckedPackets + (j - i) < s.congestionWindow / s.maxDatagramSize
               then t.congestionWindow == s.congestionWindow && t.numAckedPackets == s.numAckedPackets + (j - i)
               else t.congestionWindow == s.congestionWindow + s.maxDatagramSize && t.numAckedPackets == 0
    decreases j - i
  {
    hide Before, Apply, ValidRun, Invariant, MayGrow;
    var s, m := Before(p, run, i), Before(p, run, j - 1);
    if i < j - 1 {
      RenoGrows(p, run, i, j - 1);
    }
    BeforeStep(p, run, j - 1);
    AckMovesWindow(p, m, run[j - 1]);
    QuotientReaches(s.congestionWindow, s.maxDatagramSize, m.numAckedPackets + 2);
  }

  // ---------- Advice, losses and timeouts ----------

  /** Slow start is left on advice, at the window it has come to. */
  lemma {:induction false} AdviceEndsSlowStart(s: Sender, advised: bool)
    ensures var t := SlowStartExited(s, advised);
            && (InSlowStart(t) <==> InSlowStart(s) && !advised)
            && t == s.(slowStartThreshold := if InSlowStart(s) && advised
                                             then s.congestionWindow else s.slowStartThreshold)
  {
  }

  /**
   A loss that cuts back leaves three tenths less, of one connection's share with CUBIC, rounded down
   and at least the minimum, as the window and the threshold; other losses leave the sender as it is.
   */
  lemma {:induction false} LossCutsWindow(p: Params, s: Sender, packetNumber: nat)
    requires ParamsOk(p)
    ensures var t, n := PacketLost(p, s, packetNumber), if p.reno then 1 else p.numConnections;
            if packetNumber <= s.largestSentAtLastCutback then t == s
            else
              && t.congestionWindow == Max(2 * s.maxDatagramSize, Share(10 * n - 3, 10 * n, s.congestionWindow))
              && t.slowStartThreshold == t.congestionWindow && t.numAckedPackets == 0
              && t.lastCutbackExitedSlowstart == InSlowStart(s)
              && t.cubic == (if p.reno then s.cubic
                             else
                               var maximum := Remembered(p.mss, n, s.cubic.lastMaxCongestionWindow, s.congestionWindow);
                               s.cubic.(epoch := Cubics.UNSET_TIME, lastMaxCongestionWindow := maximum))
  {
    hide AfterLoss, Share, Scaled, Remembered;
    if !p.reno {
      LossIsExact(p.mss, p.numConnections, s.cubic, s.congestionWindow);
    } else {
      SevenTenths(s.congestionWindow);
    }
  }

  lemma {:induction false} SevenTenths(window: nat)
    ensures Scaled(RENO_BETA, window) == Share(7, 10, window)
  {
    FloorOfShare(0.7, 7, 10, window);
    assert RENO_BETA * window as real >= 0.0;
  }

  /**
   A timeout that retransmits restarts from two datagrams, towards half of the old window, and clears
   CUBIC; and every timeout forgets the last cut, so that the next loss cuts again.
   */
  lemma {:induction false} TimeoutRestarts(s: Sender)
    ensures TimedOut(s, false) == s.(largestSentAtLastCutback := INVALID_PACKET_NUMBER)
    ensures forall q: nat, retransmits: bool :: CutsBack(TimedOut(s, retransmits), q)
    ensures var t := TimedOut(s, true);
            && t.congestionWindow == 2 * s.maxDatagramSize && t.cubic == Cubics.CLEARED
            && 2 * t.slowStartThreshold <= s.congestionWindow < 2 * t.slowStartThreshold + 2
            && (InSlowStart(t) <==> s.congestionWindow >= 4 * s.maxDatagramSize + 2)
  {
  }

  // ---------- The next epoch ----------

  lemma {:induction false} MaximumStep(p: Params, s: Sender, a: Action)
    requires ParamsOk(p) && Ready(s) && !Restarts(s, a)
    ensures Apply(p, s, a).cubic.lastMaxCongestionWindow == s.cubic.lastMaxCongestionWindow
  {
    hide AfterAck, AfterLoss, IsCwndLimited;
    if a.Ack? {
      AckTakesEpochStep(p.mss, p.numConnections, s.cubic, a.ackedBytes, s.congestionWindow, a.minRtt, a.eventTime);
    }
  }

  lemma {:induction false} MaximumIsKept(p: Params, run: seq<Action>, i: nat, j: nat)
    requires ParamsOk(p) && ValidRun(run) && i <= j <= |run|
    requires forall k :: i <= k < j ==> !Restarts(Before(p, run, k), run[k])
    ensures Before(p, run, j).cubic.lastMaxCongestionWindow == Before(p, run, i).cubic.lastMaxCongestionWindow
    decreases j - i
  {
    hide Before, Apply, ValidRun, Restarts, Invariant, Ready;
    if i < j {
      MaximumIsKept(p, run, i, j - 1);
      BeforeStep(p, run, j - 1);
      MaximumStep(p, Before(p, run, j - 1), run[j - 1]);
    }
  }

  /** Action j is an ack that opens a CUBIC epoch. */
  ghost predicate OpensEpochAt(p: Params, run: seq<Action>, j: nat)
    requires ParamsOk(p) && ValidRun(run)
  {
    && j < |run| && Before(p, run, j).cubic.epoch == Cubics.UNSET_TIME
    && Before(p, run, j + 1).cubic.epoch != Cubics.UNSET_TIME
  }

  lemma {:induction false} OpensByAck(p: Params, s: Sender, a: Action)
    requires ParamsOk(p) && Ready(s)
    requires s.cubic.epoch == Cubics.UNSET_TIME != Apply(p, s, a).cubic.epoch
    ensures a.Ack?
    ensures Apply(p, s, a).cubic.originPointCongestionWindow
         == Max(s.cubic.lastMaxCongestionWindow, s.congestionWindow)
  {
    hide AfterAck, Scaled, Beta, BetaLastMax, IsCwndLimited;
    if a.Ack? {
      AckTakesEpochStep(p.mss, p.numConnections, s.cubic, a.ackedBytes, s.congestionWindow, a.minRtt, a.eventTime);
    }
  }

  /**
   After a loss that cuts CUBIC's window back, the next epoch aims at the window before the loss; or
   at seventeen twentieths (of one connection's share) of it, when it had not come within a packet
   of the maximum remembered before; or at its own first window, if that is larger.
   */
  lemma {:induction false} NextEpochAimsAt(p: Params, run: seq<Action>, i: nat, j: nat)
    requires ParamsOk(p) && ValidRun(run) && !p.reno && i < j < |run|
    requires CutsBackAt(p, run, i) && OpensEpochAt(p, run, j)
    requires forall k :: i < k < j ==> !Restarts(Before(p, run, k), run[k])
    ensures var s := Before(p, run, i);
            && run[j].Ack?
            && Before(p, run, j + 1).cubic.originPointCongestionWindow
               == Max(Remembered(p.mss, p.numConnections, s.cubic.lastMaxCongestionWindow, s.congestionWindow),
                      Before(p, run, j).congestionWindow)
  {
    hide Before, PacketLost, Remembered, Share, Ready, Invariant, ValidRun, Restarts;
    BeforeStep(p, run, i);
    LossCutsWindow(p, Before(p, run, i), run[i].packetNumber);
    MaximumIsKept(p, run, i + 1, j);
    BeforeStep(p, run, j);
    OpensByAck(p, Before(p, run, j), run[j]);
  }
}
