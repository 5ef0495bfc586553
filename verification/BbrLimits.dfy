/**
 The limits of the BBR sender, exactly: by how much an event moves the congestion window, the
 recovery window and the pacing rate, and the window of STARTUP over whole runs
 (congestion_meta2/bbr_sender.go:386-396, 807-910).
 */
module BbrLimits {
  import opened Arithmetic
  import opened BandwidthSamplers
  import opened BbrModel
  import opened BbrTargets
  import opened BbrFrames
  import opened BbrInvariants
  import opened BbrTraces
  import opened BbrEstimates
  import opened BbrReports

  // ---------- One event ----------

  /** The window grown by the bytes acknowledged, as far as the maximum allows. */
  function Grown(p: Params, window: int, bytesAcked: int): int {
    Min(window + bytesAcked, p.maxWindow)
  }

  /**
   How an event moves the window: not at all in PROBE_RTT. Before full bandwidth it grows by exactly
   the bytes acknowledged, if and only if it was below its aim, or less than the initial window has
   been acknowledged in all. At full bandwidth it grows as far as the aim and the ack height. The aim
   is twice the bandwidth-delay product.
   */
  ghost predicate WindowStep(p: Params, before: int, t: Sender, bandwidth: nat, e: Event, bytesAcked: int,
                             totalBytesAcked: nat) {
    var aim := Aim(p, t, bandwidth, e.rttMin, 2.0);
    t.congestionWindow ==
      if t.mode == ProbeRtt then before
      else if t.isAtFullBandwidth then Min(Grown(p, before, bytesAcked), aim + e.maxAckHeight)
      else if before < aim || totalBytesAcked < p.initialWindow then Grown(p, before, bytesAcked)
      else before
  }

  /**
   How an event moves the recovery window: set up with the flight and the bytes acknowledged when
   the recovery starts; lowered by the bytes lost (to a datagram, when that is more than all of it)
   and, past the conservation phase, raised by the bytes acknowledged; and never below the minimum,
   or the flight with the bytes acknowledged.
   */
  ghost predicate RecoveryStep(p: Params, s: Sender, t: Sender, bytesAcked: int, bytesLost: int) {
    var room := Max(p.minWindow, t.bytesInFlight + bytesAcked);
    t.recoveryState != NotInRecovery ==>
      if s.recoveryState == NotInRecovery then t.recoveryWindow == room
      else
        var left := if bytesLost <= s.recoveryWindow then s.recoveryWindow - bytesLost else t.maxDatagramSize;
        t.recoveryWindow == Max(room, if t.recoveryState == Conservation then left else left + bytesAcked)
  }

  /** The first pacing rate: the initial window over the connection's minimum round trip. */
  ghost predicate IsFirstRate(p: Params, rate: int, rttMin: nat) {
    rate >= 0 && rttMin > 0 && IsRate(rate, p.initialWindow, rttMin)
  }

  /**
   How an event moves the pacing rate: not without an estimate; at full bandwidth to the gain times
   the estimate; before that first to the first rate, and then only up.
   */
  ghost predicate PacingStep(p: Params, before: int, t: Sender, bandwidth: nat, rttMin: nat) {
    var scaled := (t.pacingGain * bandwidth as real).Floor;
    if bandwidth == 0 then t.pacingRate == before
    else if t.isAtFullBandwidth then t.pacingRate == scaled
    else if before == 0 && rttMin != 0 then IsFirstRate(p, t.pacingRate, rttMin)
    else t.pacingRate == Max(before, scaled)
  }

  lemma {:induction false} CongestionWindowSteps(p: Params, s: Sender, e: Event, bandwidth: nat, bytesAcked: int,
                                                 totalBytesAcked: nat)
    requires ParamsOk(p) && WindowsOkMidEvent(p, s) && s.congestionWindowGain == CWND_GAIN && bytesAcked >= 0
    ensures var t := UpdateCongestionWindow(p, s, bandwidth, e.rttMin, bytesAcked, totalBytesAcked, e.maxAckHeight);
            && WindowStep(p, s.congestionWindow, t, bandwidth, e, bytesAcked, totalBytesAcked)
            && t == s.(congestionWindow := t.congestionWindow)
  {
    hide TargetWindow, Aim;
    TargetIsAim(p, s, bandwidth, e.rttMin, 2.0);
    SameAim(p, s, UpdateCongestionWindow(p, s, bandwidth, e.rttMin, bytesAcked, totalBytesAcked, e.maxAckHeight),
            bandwidth, e.rttMin, 2.0);
  }

  lemma {:induction false} PacingRateSteps(p: Params, s: Sender, bandwidth: nat, rttMin: nat)
    requires s.pacingGain >= 0.0
    ensures var t := UpdatePacingRate(p, s, bandwidth, rttMin);
            PacingStep(p, s.pacingRate, t, bandwidth, rttMin) && t == s.(pacingRate := t.pacingRate)
  {
    hide BandwidthFromDelta, IsRate;
    assert s.pacingGain * bandwidth as real >= 0.0;
    if rttMin > 0 {
      DeltaIsRate(p.initialWindow, rttMin, 0);
    }
  }

  lemma {:induction false} RecoveryWindowSteps(p: Params, s: Sender, t: Sender, bytesAcked: int, bytesLost: int)
    requires s.recoveryState != NotInRecovery ==> s.recoveryWindow != 0 && t.recoveryWindow == s.recoveryWindow
    requires s.recoveryState == NotInRecovery && t.recoveryState != NotInRecovery ==> t.recoveryWindow == 0
    ensures RecoveryStep(p, s, UpdateRecoveryWindow(p, t, bytesAcked, bytesLost), bytesAcked, bytesLost)
  {
  }

  lemma {:induction false} AccountRecovery(s: Sender, e: Event)
    ensures var t := Account(s, e);
            && (s.recoveryState != NotInRecovery ==> t.recoveryWindow == s.recoveryWindow)
            && (s.recoveryState == NotInRecovery && t.recoveryState != NotInRecovery ==> t.recoveryWindow == 0)
  {
    hide SumAcked, SumLost, CountRound, UpdateRecovery, StartsRound;
    var counted := s.(bytesInFlight := e.priorInFlight - SumAcked(e.acked) - SumLost(e.lost));
    if e.acked != [] {
      var last := e.acked[|e.acked| - 1].packetNumber;
      RoundOnly(counted, last);
      UpdateStartsWindow(CountRound(counted, last), last, e.lost != [], StartsRound(counted, e.acked));
    }
  }

  lemma {:induction false} UpdateStartsWindow(s: Sender, lastAcked: int, hasLosses: bool, isRoundStart: bool)
    ensures var t := UpdateRecovery(s, lastAcked, hasLosses, isRoundStart);
            && (s.recoveryState != NotInRecovery ==> t.recoveryWindow == s.recoveryWindow)
            && (s.recoveryState == NotInRecovery && t.recoveryState != NotInRecovery ==> t.recoveryWindow == 0)
  {
  }

  lemma {:induction false} RecalculateSteps(p: Params, s: Sender, t: Sender, e: Event, bandwidth: nat, bytesAcked: int,
                                            totalBytesAcked: nat, bytesLost: int)
    requires ParamsOk(p) && ModesAgree(t) && WindowsOkMidEvent(p, t) && bytesAcked >= 0
    requires s.recoveryState != NotInRecovery ==> s.recoveryWindow != 0 && t.recoveryWindow == s.recoveryWindow
    requires s.recoveryState == NotInRecovery && t.recoveryState != NotInRecovery ==> t.recoveryWindow == 0
    ensures var u := Recalculate(p, t, e, bandwidth, bytesAcked, totalBytesAcked, bytesLost);
            && WindowStep(p, t.congestionWindow, u, bandwidth, e, bytesAcked, totalBytesAcked)
            && RecoveryStep(p, s, u, bytesAcked, bytesLost)
            && PacingStep(p, t.pacingRate, u, bandwidth, e.rttMin)
  {
    hide UpdatePacingRate, UpdateCongestionWindow, UpdateRecoveryWindow, ModesAgree, WindowStep, RecoveryStep,
         PacingStep;
    GainsOk(t);
    PacingRateSteps(p, t, bandwidth, e.rttMin);
    var paced := UpdatePacingRate(p, t, bandwidth, e.rttMin);
    CongestionWindowSteps(p, paced, e, bandwidth, bytesAcked, totalBytesAcked);
    var sized := UpdateCongestionWindow(p, paced, bandwidth, e.rttMin, bytesAcked, totalBytesAcked, e.maxAckHeight);
    RecoveryWindowSteps(p, s, sized, bytesAcked, bytesLost);
    RecoveryWindowOnly(p, sized, bytesAcked, bytesLost);
    var u := UpdateRecoveryWindow(p, sized, bytesAcked, bytesLost);
    SameWindowStep(p, t.congestionWindow, sized, u, bandwidth, e, bytesAcked, totalBytesAcked);
    SamePacingStep(p, t.pacingRate, paced, u, bandwidth, e.rttMin);
  }

  lemma {:induction false} GainsOk(s: Sender)
    requires ModesAgree(s)
    ensures s.congestionWindowGain == CWND_GAIN && s.pacingGain >= 0.0
  {
  }

  lemma {:induction false} SameWindowStep(p: Params, before: int, t: Sender, u: Sender, bandwidth: nat, e: Event,
                                          bytesAcked: int, totalBytesAcked: nat)
    requires u.congestionWindow == t.congestionWindow && u.mode == t.mode && u.minRtt == t.minRtt
    requires u.isAtFullBandwidth == t.isAtFullBandwidth
    ensures WindowStep(p, before, u, bandwidth, e, bytesAcked, totalBytesAcked)
         == WindowStep(p, before, t, bandwidth, e, bytesAcked, totalBytesAcked)
  {
    hide Aim;
    SameAim(p, u, t, bandwidth, e.rttMin, 2.0);
  }

  lemma {:induction false} SamePacingStep(p: Params, before: int, t: Sender, u: Sender, bandwidth: nat, rttMin: nat)
    requires u.pacingRate == t.pacingRate && u.pacingGain == t.pacingGain
    requires u.isAtFullBandwidth == t.isAtFullBandwidth
    ensures PacingStep(p, before, u, bandwidth, rttMin) == PacingStep(p, before, t, bandwidth, rttMin)
  {
  }

  lemma {:induction false} SameRecoveryStep(p: Params, s: Sender, t: Sender, u: Sender, bytesAcked: int, bytesLost: int)
    requires u.recoveryState == t.recoveryState && u.recoveryWindow == t.recoveryWindow
    requires u.bytesInFlight == t.bytesInFlight && u.maxDatagramSize == t.maxDatagramSize
    ensures RecoveryStep(p, s, u, bytesAcked, bytesLost) == RecoveryStep(p, s, t, bytesAcked, bytesLost)
  {
  }

  lemma {:induction false} AccountFlight(s: Sender, e: Event)
    ensures Account(s, e).bytesInFlight == e.priorInFlight - SumAcked(e.acked) - SumLost(e.lost)
  {
    hide SumAcked, SumLost, CountRound, UpdateRecovery, StartsRound;
    var counted := s.(bytesInFlight := e.priorInFlight - SumAcked(e.acked) - SumLost(e.lost));
    if e.acked != [] {
      var last := e.acked[|e.acked| - 1].packetNumber;
      RoundOnly(counted, last);
      RecoveryOnly(CountRound(counted, last), last, e.lost != [], StartsRound(counted, e.acked));
    }
  }

  lemma {:induction false} FlightIsKept(p: Params, k: Stack, e: Event, d: Steps, isRoundStart: bool)
    requires WellFormed(k.sampler) && AreSteps(p, k, e, d)
    ensures ResetLosses(d.recalculated, isRoundStart).bytesInFlight == d.accounted.bytesInFlight
  {
    hide Account, Learn, ChangeModes, UpdateProbeRtt, Recalculate, Filtered, SampledEvent, MinRttExpired, StartsRound,
         WellFormed, ResetLosses;
    LearnOnly(d.accounted, d.sample, e.eventTime);
    ChangeModesOnly(p, d.learned, e, d.bandwidth, d.sample.lastPacketSendState, StartsRound(k.sender, e.acked),
                    d.bytesLost);
    ProbeRttOnly(p, d.changed, e.eventTime, StartsRound(k.sender, e.acked), d.minRttExpired, e.draw);
    LimitsOnly(p, d.probed, e, d.bandwidth, d.bytesAcked, d.totalBytesAcked, d.bytesLost);
    ResetOnly(d.recalculated, isRoundStart);
  }

  /** How an event moves the three limits, from the states before and after it and the totals of the sampler. */
  lemma {:induction false} EventMovesLimits(p: Params, k: Stack, e: Event)
    requires ParamsOk(p) && Invariant(p, k) && NonEmpty(e)
    ensures var k' := OnCongestionEvent(p, k, e);
            var bandwidth, total := k'.filter[0].sample, k'.sampler.totalBytesAcked;
            var bytesAcked := total - k.sampler.totalBytesAcked;
            && WindowStep(p, k.sender.congestionWindow, k'.sender, bandwidth, e, bytesAcked, total)
            && RecoveryStep(p, k.sender, k'.sender, bytesAcked, SumLost(e.lost))
            && PacingStep(p, k.sender.pacingRate, k'.sender, bandwidth, e.rttMin)
            && k'.sender.bytesInFlight == e.priorInFlight - SumAcked(e.acked) - SumLost(e.lost)
  {
    hide Account, Learn, ChangeModes, UpdateProbeRtt, Recalculate, Filtered, SampledEvent, MinRttExpired, ResetLosses,
         StartsRound, WellFormed, ModesAgreeMidEvent, WholeBytes, OnCongestionEvent, SumLost,
         WindowStep, RecoveryStep, PacingStep;
    var d := EventIsItsSteps(p, k, e);
    var isRoundStart := StartsRound(k.sender, e.acked);
    SampledEventFacts(p, k, e);
    EventReport(p, k, e);
    AccountKeeps(p, k.sender, e);
    AccountOnly(k.sender, e);
    AccountRecovery(k.sender, e);
    LearnKeeps(d.accounted, d.sample, e.eventTime);
    ChangeModesKeeps(p, d.learned, e, d.bandwidth, d.sample.lastPacketSendState, isRoundStart, d.bytesLost);
    ProbeRttKeeps(p, d.changed, e.eventTime, isRoundStart, d.minRttExpired, e.draw);
    RecalculateSteps(p, k.sender, d.probed, e, d.bandwidth, d.bytesAcked, d.totalBytesAcked, d.bytesLost);
    ResetOnly(d.recalculated, isRoundStart);
    AccountFlight(k.sender, e);
    FlightIsKept(p, k, e, d, isRoundStart);
    var t := OnCongestionEvent(p, k, e).sender;
    SameWindowStep(p, k.sender.congestionWindow, d.recalculated, t, d.bandwidth, e, d.bytesAcked, d.totalBytesAcked);
    SamePacingStep(p, k.sender.pacingRate, d.recalculated, t, d.bandwidth, e.rttMin);
    SameRecoveryStep(p, k.sender, d.recalculated, t, d.bytesAcked, d.bytesLost);
  }

  /**
   So after every event at full bandwidth, the pacing rate is the gain of the phase the event has
   led to times the new estimate, unless that is unknown; and outside PROBE_RTT the window is at
   most twice the estimated bandwidth-delay product, and the tracked ack height.
   */
  lemma {:induction false} LimitsFollowEstimates(p: Params, k: Stack, e: Event)
    requires ParamsOk(p) && Invariant(p, k) && NonEmpty(e)
    ensures var k' := OnCongestionEvent(p, k, e);
            var t, bandwidth := k'.sender, k'.filter[0].sample;
            t.isAtFullBandwidth ==>
              && (bandwidth > 0 ==> t.pacingRate == (t.pacingGain * bandwidth as real).Floor)
              && (t.mode != ProbeRtt ==> t.congestionWindow <= Aim(p, t, bandwidth, e.rttMin, 2.0) + e.maxAckHeight)
  {
    hide OnCongestionEvent, Aim, RecoveryStep;
    EventMovesLimits(p, k, e);
  }

  /** The window that the send check uses: the minimum in PROBE_RTT, and in recovery the smaller of the two windows. */
  lemma {:induction false} SendWindow(p: Params, s: Sender)
    ensures var w := CongestionWindow(p, s);
            if s.mode == ProbeRtt then w == p.minWindow
            else && w <= s.congestionWindow && (s.recoveryState != NotInRecovery ==> w <= s.recoveryWindow)
                 && (w == s.congestionWindow || (s.recoveryState != NotInRecovery && w == s.recoveryWindow))
  {
  }

  // ---------- The window of STARTUP ----------

  /** The bytes acknowledged by those of the first n actions that do not end in PROBE_RTT. */
  ghost function AckedOutsideProbeRtt(p: Params, mds: nat, run: seq<Action>, n: nat): int
    requires ParamsOk(p) && ValidRun(run) && n <= |run|
  {
    if n == 0 then 0
    else
      var before, after := Before(p, mds, run, n - 1), Before(p, mds, run, n);
      AckedOutsideProbeRtt(p, mds, run, n - 1)
      + if after.sender.mode == ProbeRtt then 0 else after.sampler.totalBytesAcked - before.sampler.totalBytesAcked
  }

  lemma {:induction false} ActionMovesWindow(p: Params, mds: nat, run: seq<Action>, i: nat)
    requires ParamsOk(p) && ValidRun(run) && i < |run|
    requires !Before(p, mds, run, i + 1).sender.isAtFullBandwidth
    requires Before(p, mds, run, i + 1).sampler.totalBytesAcked < p.initialWindow
    ensures var k, k' := Before(p, mds, run, i), Before(p, mds, run, i + 1);
            k'.sender.congestionWindow
              == if k'.sender.mode == ProbeRtt then k.sender.congestionWindow
                 else Grown(p, k.sender.congestionWindow, k'.sampler.totalBytesAcked - k.sampler.totalBytesAcked)
  {
    hide OnCongestionEvent, WellFormed, Before, RecoveryStep, PacingStep, Aim;
    BeforeStep(p, mds, run, i);
    TotalsStep(p, mds, run, i);
    if run[i].Congestion? {
      NoEmptyEvent(run, i);
      EventMovesLimits(p, Before(p, mds, run, i), run[i].event);
    }
  }

  /**
   Until full bandwidth, and until the bytes of an initial window have been acknowledged, the window
   is the initial one and the bytes acknowledged outside PROBE_RTT, up to the maximum.
   */
  lemma {:induction false} StartupWindow(p: Params, mds: nat, run: seq<Action>, n: nat)
    requires ParamsOk(p) && ValidRun(run) && n <= |run|
    requires !Before(p, mds, run, n).sender.isAtFullBandwidth
    requires Before(p, mds, run, n).sampler.totalBytesAcked < p.initialWindow
    ensures Before(p, mds, run, n).sender.congestionWindow
         == Min(p.maxWindow, p.initialWindow + AckedOutsideProbeRtt(p, mds, run, n))
    decreases n
  {
    hide Before, ValidRun, Invariant, LastSent;
    if n == 0 {
      StartsAtInitialWindow(p, mds, run);
    } else {
      if Before(p, mds, run, n - 1).sender.isAtFullBandwidth {
        FullBandwidthIsKept(p, mds, run, n - 1, n);
      }
      TotalsStep(p, mds, run, n - 1);
      StartupWindow(p, mds, run, n - 1);
      ActionMovesWindow(p, mds, run, n - 1);
    }
  }

  lemma {:induction false} StartsAtInitialWindow(p: Params, mds: nat, run: seq<Action>)
    requires ParamsOk(p) && ValidRun(run)
    ensures Before(p, mds, run, 0).sender.congestionWindow == p.initialWindow
  {
    assert run[..0] == [];
  }

  /** Without a PROBE_RTT those are all the bytes acknowledged. */
  lemma {:induction false} AllAckedOutsideProbeRtt(p: Params, mds: nat, run: seq<Action>, n: nat)
    requires ParamsOk(p) && ValidRun(run) && n <= |run|
    requires forall m: nat :: m <= n ==> Before(p, mds, run, m).sender.mode != ProbeRtt
    ensures AckedOutsideProbeRtt(p, mds, run, n) == Before(p, mds, run, n).sampler.totalBytesAcked
    decreases n
  {
    hide Before, ValidRun;
    if n == 0 {
      NothingTracked(p, mds, run);
    } else {
      AllAckedOutsideProbeRtt(p, mds, run, n - 1);
    }
  }

  // ---------- The flight ----------

  lemma {:induction false} SumsAdd(acked: seq<AckedPacket>, more: seq<AckedPacket>)
    ensures SumAcked(acked + more) == SumAcked(acked) + SumAcked(more)
    ensures |more| == 1 ==> SumAcked(more) == more[0].bytesAcked
  {
    if more == [] {
      assert acked + more == acked;
    } else {
      var n := |more| - 1;
      SumsAdd(acked, more[..n]);
      assert (acked + more)[..|acked| + n] == acked + more[..n];
    }
  }

  lemma {:induction false} LostSumsAdd(lost: seq<LostPacket>, more: seq<LostPacket>)
    ensures SumLost(lost + more) == SumLost(lost) + SumLost(more)
    ensures |more| == 1 ==> SumLost(more) == more[0].bytesLost
  {
    if more == [] {
      assert lost + more == lost;
    } else {
      var n := |more| - 1;
      LostSumsAdd(lost, more[..n]);
      assert (lost + more)[..|lost| + n] == lost + more[..n];
    }
  }

  /** In every run the flight is the one that the last send or event reported, less what that event took out of it. */
  lemma {:induction false} FlightAfterAction(p: Params, mds: nat, run: seq<Action>, i: nat)
    requires ParamsOk(p) && ValidRun(run) && i < |run|
    ensures var s, t := Before(p, mds, run, i).sender, Before(p, mds, run, i + 1).sender;
            t.bytesInFlight == match run[i]
                               case Send(_, inFlight, _, _, _) => inFlight
                               case Congestion(e) => e.priorInFlight - SumAcked(e.acked) - SumLost(e.lost)
                               case Resize(_) => s.bytesInFlight
  {
    hide OnCongestionEvent, WellFormed, Before, WindowStep, RecoveryStep, PacingStep, SumAcked, SumLost;
    BeforeStep(p, mds, run, i);
    if run[i].Congestion? {
      NoEmptyEvent(run, i);
      EventMovesLimits(p, Before(p, mds, run, i), run[i].event);
    }
  }
}
