/**
 What every event of the BBR sender keeps: the joint invariant of its modes, its gains, its
 recovery state and its windows (congestion_meta2/bbr_sender.go).
 */
module BbrInvariants {
  import opened BandwidthSamplers
  import opened PacketQueues
  import opened WindowedFilters
  import opened BbrModel
  import opened BbrFrames

  /** Mode, gains and the full-bandwidth flag agree. */
  ghost predicate ModesAgree(s: Sender) {
    && (s.mode == Startup ==> !s.isAtFullBandwidth)
    && ModesAgreeMidEvent(s)
  }

  /** The same, except that STARTUP may have just found full bandwidth. */
  ghost predicate ModesAgreeMidEvent(s: Sender) {
    && (s.mode == Startup ==> s.pacingGain == HIGH_GAIN)
    && (s.mode == Drain ==> s.isAtFullBandwidth && s.pacingGain == DRAIN_GAIN)
    && (s.mode == ProbeBw ==>
          && s.isAtFullBandwidth
          && s.cycleCurrentOffset < GAIN_CYCLE_LENGTH && s.pacingGain == GainAt(s.cycleCurrentOffset))
    && (s.mode == ProbeRtt ==> s.pacingGain == 1.0)
    && s.congestionWindowGain == CWND_GAIN
    && (s.recoveryState != NotInRecovery ==> s.isAtFullBandwidth)
    && (!s.isAtFullBandwidth ==> s.roundsWithoutBandwidthGain < NUM_STARTUP_RTTS)
  }

  /** The stored window is in bounds; inside an event the recovery window may still be unset. */
  ghost predicate WindowsOkMidEvent(p: Params, s: Sender) {
    && p.minWindow <= s.congestionWindow <= p.maxWindow
    && (s.recoveryState != NotInRecovery ==> s.recoveryWindow == 0 || s.recoveryWindow >= p.minWindow)
  }

  ghost predicate WindowsOk(p: Params, s: Sender) {
    && p.minWindow <= s.congestionWindow <= p.maxWindow
    && (s.recoveryState != NotInRecovery ==> s.recoveryWindow >= p.minWindow)
  }

  /** The packets that end a round and a recovery have been sent. */
  ghost predicate MarkersSent(s: Sender) {
    && INVALID_PACKET_NUMBER <= s.currentRoundTripEnd <= s.lastSentPacket
    && INVALID_PACKET_NUMBER <= s.endRecoveryAt <= s.lastSentPacket
  }

  /** Every bandwidth in the filter is a whole number of bytes per second, in bits. */
  ghost predicate WholeBytes(filter: Estimates) {
    && filter[0].sample % BYTES_PER_SECOND == 0
    && filter[1].sample % BYTES_PER_SECOND == 0
    && filter[2].sample % BYTES_PER_SECOND == 0
  }

  ghost predicate Invariant(p: Params, k: Stack) {
    && ModesAgree(k.sender) && WindowsOk(p, k.sender) && MarkersSent(k.sender) && k.sender.pacingRate >= 0
    && WholeBytes(k.filter)
    && WellFormed(k.sampler) && k.sampler.lastSentPacket == k.sender.lastSentPacket
  }

  // ---------- What the sampler reports ----------

  lemma {:induction false} ScaleNonNegative(gain: real, x: nat)
    requires gain >= 0.0
    ensures Scale(gain, x) >= 0
  {
    assert gain * x as real >= 0.0;
  }

  lemma {:induction false} SampleWholeBytes(sent: Snapshot, totalBytesAcked: nat, ackTime: nat)
    requires sent.totalBytesSentAtLastAckedPacket <= sent.sendTimeState.totalBytesSent
    requires sent.sendTimeState.totalBytesAcked <= totalBytesAcked
    ensures SampleOf(sent, totalBytesAcked, ackTime).bandwidth % BYTES_PER_SECOND == 0
  {
  }

  lemma {:induction false} AckAllWholeBytes(s: State, ackTime: nat, acked: seq<AckedPacket>)
    requires WellFormed(s)
    ensures AckAll(s, ackTime, acked).1.sampleMaxBandwidth % BYTES_PER_SECOND == 0
    ensures AckAll(s, ackTime, acked).0.totalBytesAcked >= s.totalBytesAcked
    ensures AckAll(s, ackTime, acked).0.totalBytesLost == s.totalBytesLost
    ensures AckAll(s, ackTime, acked).0.lastSentPacket == s.lastSentPacket
  {
    if acked != [] {
      var init, p := acked[..|acked| - 1], acked[|acked| - 1].packetNumber;
      AckAllWholeBytes(s, ackTime, init);
      var before := AckAll(s, ackTime, init).0;
      if p in before.tracked.live {
        assert SnapshotOk(before, before.tracked.live[p]);
        SampleWholeBytes(before.tracked.live[p], Acked(before, ackTime, p).0.totalBytesAcked, ackTime);
      }
    }
  }

  lemma {:induction false} LoseAllGrows(s: State, lost: seq<LostPacket>)
    ensures LoseAll(s, lost).0.totalBytesLost >= s.totalBytesLost
  {
    if lost != [] {
      LoseAllGrows(s, lost[..|lost| - 1]);
    }
  }

  /** What the sender may rely on in the sampler's report. */
  lemma {:induction false} SampledEventFacts(p: Params, k: Stack, e: Event)
    requires WellFormed(k.sampler)
    ensures var (sampled, sample) := SampledEvent(p, k, e);
            && sample.sampleMaxBandwidth % BYTES_PER_SECOND == 0
            && sampled.totalBytesAcked >= k.sampler.totalBytesAcked
            && sampled.totalBytesLost >= k.sampler.totalBytesLost
            && sampled.lastSentPacket == k.sampler.lastSentPacket
  {
    OthersKeepWellFormed(k.sampler, 0, 0, 0);
    var s := if IsAppLimited(p, k.sender, e.priorInFlight) then LimitedByApp(k.sampler) else k.sampler;
    LoseAllKeepsWellFormed(s, e.lost);
    LoseAllGrows(s, e.lost);
    AckAllWholeBytes(LoseAll(s, e.lost).0, e.eventTime, e.acked);
  }

  lemma {:induction false} FilteredWholeBytes(filter: Estimates, sample: EventSample, round: nat, anyAcked: bool)
    requires WholeBytes(filter) && sample.sampleMaxBandwidth % BYTES_PER_SECOND == 0
    ensures WholeBytes(Filtered(filter, sample, round, anyAcked))
  {
  }

  // ---------- The steps ----------

  lemma {:induction false} CountRoundKeeps(p: Params, s: Sender, lastAcked: int)
    requires ModesAgree(s) && WindowsOk(p, s) && MarkersSent(s)
    ensures var t := CountRound(s, lastAcked);
            && ModesAgree(t) && WindowsOk(p, t) && MarkersSent(t)
            && t == s.(roundTripCount := t.roundTripCount, currentRoundTripEnd := t.currentRoundTripEnd)
  {
  }

  lemma {:induction false} UpdateRecoveryKeeps(p: Params, s: Sender, lastAcked: int, hasLosses: bool,
                                               isRoundStart: bool)
    requires ModesAgree(s) && WindowsOk(p, s) && MarkersSent(s)
    ensures var t := UpdateRecovery(s, lastAcked, hasLosses, isRoundStart);
            && ModesAgree(t) && WindowsOkMidEvent(p, t) && MarkersSent(t)
            && t == s.(recoveryState := t.recoveryState, endRecoveryAt := t.endRecoveryAt,
                       recoveryWindow := t.recoveryWindow, currentRoundTripEnd := t.currentRoundTripEnd)
  {
  }

  lemma {:induction false} AccountKeeps(p: Params, s: Sender, e: Event)
    requires ModesAgree(s) && WindowsOk(p, s) && MarkersSent(s)
    ensures var t := Account(s, e);
            && ModesAgree(t) && WindowsOkMidEvent(p, t) && MarkersSent(t)
            && t.isAtFullBandwidth == s.isAtFullBandwidth && t.lastSentPacket == s.lastSentPacket
            && t.congestionWindow == s.congestionWindow && t.pacingRate == s.pacingRate
  {
    hide CountRound, UpdateRecovery, StartsRound;
    var counted := s.(bytesInFlight := e.priorInFlight - SumAcked(e.acked) - SumLost(e.lost));
    assert ModesAgree(counted) && WindowsOk(p, counted) && MarkersSent(counted);
    if e.acked != [] {
      var last := e.acked[|e.acked| - 1].packetNumber;
      CountRoundKeeps(p, counted, last);
      UpdateRecoveryKeeps(p, CountRound(counted, last), last, e.lost != [], StartsRound(counted, e.acked));
    }
  }

  /** The markers of the round and of the recovery are the same. */
  ghost predicate SameMarkers(s: Sender, t: Sender) {
    && t.currentRoundTripEnd == s.currentRoundTripEnd && t.endRecoveryAt == s.endRecoveryAt
    && t.recoveryState == s.recoveryState
  }

  /** What a change of modes never touches. */
  ghost predicate SameFlow(s: Sender, t: Sender) {
    && SameMarkers(s, t)
    && t.congestionWindow == s.congestionWindow && t.pacingRate == s.pacingRate && t.recoveryWindow == s.recoveryWindow
    && t.lastSentPacket == s.lastSentPacket
    && (s.isAtFullBandwidth ==> t.isAtFullBandwidth)
  }

  lemma {:induction false} SameFlowKeeps(p: Params, s: Sender, t: Sender)
    requires SameFlow(s, t) && WindowsOkMidEvent(p, s) && MarkersSent(s)
    ensures WindowsOkMidEvent(p, t) && MarkersSent(t)
  {
  }

  lemma {:induction false} LearnKeeps(s: Sender, sample: EventSample, now: nat)
    requires ModesAgree(s)
    ensures ModesAgree(Learn(s, sample, now)) && SameFlow(s, Learn(s, sample, now))
    ensures Learn(s, sample, now).isAtFullBandwidth == s.isAtFullBandwidth
  {
  }

  lemma {:induction false} GainCycleKeeps(p: Params, s: Sender, bandwidth: nat, e: Event)
    requires ModesAgree(s) && s.mode == ProbeBw
    ensures var t := UpdateGainCycle(p, s, bandwidth, e.rttMin, e.eventTime, e.priorInFlight, e.lost != []);
            ModesAgree(t) && SameFlow(s, t)
  {
    hide AdvancesCycle;
  }

  lemma {:induction false} CheckFullBandwidthKeeps(s: Sender, bandwidth: nat, last: SendTimeState)
    requires ModesAgree(s) && !s.isAtFullBandwidth
    ensures var t := CheckFullBandwidth(s, bandwidth, last);
            ModesAgreeMidEvent(t) && SameFlow(s, t)
  {
    hide GrowthTarget, ExitsStartupByLoss;
  }

  lemma {:induction false} ExitStartupKeeps(p: Params, s: Sender, bandwidth: nat, rttMin: nat, now: nat, draw: nat)
    requires ModesAgreeMidEvent(s)
    ensures var t := ExitStartupOrDrain(p, s, bandwidth, rttMin, now, draw);
            ModesAgree(t) && SameFlow(s, t)
  {
    hide TargetWindow;
  }

  lemma {:induction false} ChangeModesKeeps(p: Params, s: Sender, e: Event, bandwidth: nat, last: SendTimeState,
                                            isRoundStart: bool, bytesLost: int)
    requires ModesAgree(s)
    ensures var t := ChangeModes(p, s, e, bandwidth, last, isRoundStart, bytesLost);
            ModesAgree(t) && SameFlow(s, t)
  {
    hide UpdateGainCycle, CheckFullBandwidth, ExitStartupOrDrain;
    var lossy := CountLosses(s, e.lost != [], bytesLost);
    assert ModesAgree(lossy);
    if lossy.mode == ProbeBw {
      GainCycleKeeps(p, lossy, bandwidth, e);
    }
    var cycled := if lossy.mode == ProbeBw
                  then UpdateGainCycle(p, lossy, bandwidth, e.rttMin, e.eventTime, e.priorInFlight, e.lost != [])
                  else lossy;
    if !cycled.isAtFullBandwidth {
      CheckFullBandwidthKeeps(cycled, bandwidth, last);
    }
    var checked := Checked(p, s, e, bandwidth, last, isRoundStart, bytesLost);
    ExitStartupKeeps(p, checked, bandwidth, e.rttMin, e.eventTime, e.draw);
  }

  lemma {:induction false} EnterProbeBwKeeps(s: Sender, now: nat, draw: nat)
    requires ModesAgree(s) && s.isAtFullBandwidth
    ensures var t := EnterProbeBw(s, now, draw);
            ModesAgree(t) && SameFlow(s, t) && t.isAtFullBandwidth
  {
    hide CycleOffset;
  }

  lemma {:induction false} StayInProbeRttKeeps(p: Params, s: Sender, now: nat, isRoundStart: bool, draw: nat)
    requires ModesAgree(s) && s.mode == ProbeRtt
    ensures var t := StayInProbeRtt(p, s, now, isRoundStart, draw);
            ModesAgree(t) && SameFlow(s, t) && t.isAtFullBandwidth == s.isAtFullBandwidth
  {
    hide EnterProbeBw;
    var timed := s.(probeRttRoundPassed := s.probeRttRoundPassed || isRoundStart, minRttTimestamp := now);
    if timed.isAtFullBandwidth {
      EnterProbeBwKeeps(timed, now, draw);
    }
  }

  lemma {:induction false} ProbeRttKeeps(p: Params, s: Sender, now: nat, isRoundStart: bool, minRttExpired: bool,
                                         draw: nat)
    requires ModesAgree(s)
    ensures var t := UpdateProbeRtt(p, s, now, isRoundStart, minRttExpired, draw);
            ModesAgree(t) && SameFlow(s, t) && t.isAtFullBandwidth == s.isAtFullBandwidth
  {
    hide StayInProbeRtt;
    var entered := EnterProbeRtt(s, minRttExpired);
    assert ModesAgree(entered);
    if entered.mode == ProbeRtt {
      StayInProbeRttKeeps(p, entered, now, isRoundStart, draw);
    }
  }

  lemma {:induction false} PacingRateKeeps(p: Params, s: Sender, bandwidth: nat, rttMin: nat)
    requires ModesAgree(s) && s.pacingRate >= 0
    ensures var t := UpdatePacingRate(p, s, bandwidth, rttMin);
            && t.pacingRate >= 0 && (!s.isAtFullBandwidth ==> t.pacingRate >= s.pacingRate)
            && t == s.(pacingRate := t.pacingRate)
  {
    hide Scale;
    assert s.pacingGain >= 0.0;
    ScaleNonNegative(s.pacingGain, bandwidth);
  }

  lemma {:induction false} CongestionWindowKeeps(p: Params, s: Sender, bandwidth: nat, rttMin: nat, bytesAcked: int,
                                                 totalBytesAcked: nat, maxAckHeight: nat)
    requires ParamsOk(p) && WindowsOkMidEvent(p, s) && bytesAcked >= 0
    ensures var t := UpdateCongestionWindow(p, s, bandwidth, rttMin, bytesAcked, totalBytesAcked, maxAckHeight);
            && WindowsOkMidEvent(p, t) && t == s.(congestionWindow := t.congestionWindow)
            && (!s.isAtFullBandwidth ==> t.congestionWindow >= s.congestionWindow)
            && t.congestionWindow <= s.congestionWindow + bytesAcked
  {
    hide TargetWindow;
  }

  lemma {:induction false} RecoveryWindowKeeps(p: Params, s: Sender, bytesAcked: int, bytesLost: int)
    requires WindowsOkMidEvent(p, s)
    ensures var t := UpdateRecoveryWindow(p, s, bytesAcked, bytesLost);
            && WindowsOk(p, t) && t == s.(recoveryWindow := t.recoveryWindow)
            && (t.recoveryState != NotInRecovery ==> t.recoveryWindow >= t.bytesInFlight + bytesAcked)
  {
  }

  lemma {:induction false} RecalculateKeeps(p: Params, s: Sender, e: Event, bandwidth: nat, bytesAcked: int,
                                            totalBytesAcked: nat, bytesLost: int)
    requires ParamsOk(p) && ModesAgree(s) && WindowsOkMidEvent(p, s) && s.pacingRate >= 0 && bytesAcked >= 0
    ensures var t := Recalculate(p, s, e, bandwidth, bytesAcked, totalBytesAcked, bytesLost);
            && ModesAgree(t) && WindowsOk(p, t) && t.pacingRate >= 0
            && (!s.isAtFullBandwidth ==> t.congestionWindow >= s.congestionWindow && t.pacingRate >= s.pacingRate)
            && t.congestionWindow <= s.congestionWindow + bytesAcked
            && (t.recoveryState != NotInRecovery ==> t.recoveryWindow >= t.bytesInFlight + bytesAcked)
            && SameMarkers(s, t) && (MarkersSent(s) ==> MarkersSent(t))
            && t.isAtFullBandwidth == s.isAtFullBandwidth && t.lastSentPacket == s.lastSentPacket
  {
    hide UpdatePacingRate, UpdateCongestionWindow, UpdateRecoveryWindow;
    PacingRateKeeps(p, s, bandwidth, e.rttMin);
    var paced := UpdatePacingRate(p, s, bandwidth, e.rttMin);
    CongestionWindowKeeps(p, paced, bandwidth, e.rttMin, bytesAcked, totalBytesAcked, e.maxAckHeight);
    var sized := UpdateCongestionWindow(p, paced, bandwidth, e.rttMin, bytesAcked, totalBytesAcked, e.maxAckHeight);
    RecoveryWindowKeeps(p, sized, bytesAcked, bytesLost);
  }

  /**
   What one event does to the sender's flow, besides keeping the invariant: full bandwidth is
   never undone; before it, neither the window nor the pacing rate decreases; the window grows
   by no more than the bytes acknowledged; and a recovery admits as many new bytes as those.
   */
  ghost predicate Progress(s: Sender, t: Sender, bytesAcked: int) {
    && (s.isAtFullBandwidth ==> t.isAtFullBandwidth)
    && (!t.isAtFullBandwidth ==> t.congestionWindow >= s.congestionWindow && t.pacingRate >= s.pacingRate)
    && t.congestionWindow <= s.congestionWindow + bytesAcked
    && (t.recoveryState != NotInRecovery ==> t.recoveryWindow >= t.bytesInFlight + bytesAcked)
    && t.lastSentPacket == s.lastSentPacket
  }

  /**
   Every congestion event keeps the joint invariant; full bandwidth is never undone, and the
   markers of the round and the recovery are settled by the event's first step.
   */
  lemma {:induction false} EventKeepsInvariant(p: Params, k: Stack, e: Event)
    requires ParamsOk(p) && Invariant(p, k) && NonEmpty(e)
    ensures Invariant(p, OnCongestionEvent(p, k, e))
    ensures var k' := OnCongestionEvent(p, k, e);
            Progress(k.sender, k'.sender, k'.sampler.totalBytesAcked - k.sampler.totalBytesAcked)
    ensures SameMarkers(Account(k.sender, e), OnCongestionEvent(p, k, e).sender)
  {
    hide Account, Learn, ChangeModes, UpdateProbeRtt, Recalculate, Filtered, SampledEvent, MinRttExpired, ResetLosses,
         StartsRound, WellFormed, ModesAgreeMidEvent, WindowsOkMidEvent, WholeBytes, LeastUnacked, OnCongestionEvent;
    var d := EventIsItsSteps(p, k, e);
    var isRoundStart := StartsRound(k.sender, e.acked);
    SampledEventFacts(p, k, e);
    AccountKeeps(p, k.sender, e);
    FilteredWholeBytes(k.filter, d.sample, d.accounted.roundTripCount, d.bytesAcked != 0);
    LearnKeeps(d.accounted, d.sample, e.eventTime);
    SameFlowKeeps(p, d.accounted, d.learned);
    ChangeModesKeeps(p, d.learned, e, d.bandwidth, d.sample.lastPacketSendState, isRoundStart, d.bytesLost);
    SameFlowKeeps(p, d.learned, d.changed);
    ProbeRttKeeps(p, d.changed, e.eventTime, isRoundStart, d.minRttExpired, e.draw);
    SameFlowKeeps(p, d.changed, d.probed);
    RecalculateKeeps(p, d.probed, e, d.bandwidth, d.bytesAcked, d.totalBytesAcked, d.bytesLost);
    ResetLossesKeeps(p, d.recalculated, isRoundStart);
    SamplerKeeps(SampledEvent(p, k, e).0, LeastUnacked(e));
  }

  lemma {:induction false} ResetLossesKeeps(p: Params, s: Sender, isRoundStart: bool)
    requires ModesAgree(s) && WindowsOk(p, s) && MarkersSent(s)
    ensures var t := ResetLosses(s, isRoundStart);
            && ModesAgree(t) && WindowsOk(p, t) && MarkersSent(t)
            && t == s.(numLossEventsInRound := t.numLossEventsInRound, bytesLostInRound := t.bytesLostInRound)
  {
  }

  lemma {:induction false} SamplerKeeps(s: State, leastUnacked: int)
    requires WellFormed(s)
    ensures WellFormed(Obsoleted(s, leastUnacked)) && WellFormed(Obsoleted(LimitedByApp(s), leastUnacked))
  {
    OthersKeepWellFormed(s, 0, 0, leastUnacked);
    OthersKeepWellFormed(LimitedByApp(s), 0, 0, leastUnacked);
  }

  lemma {:induction false} SendKeepsInvariant(p: Params, k: Stack, sentTime: nat, bytesInFlight: nat,
                                              packetNumber: nat, bytes: nat, isRetransmittable: bool)
    requires Invariant(p, k) && packetNumber > k.sender.lastSentPacket
    ensures Invariant(p, OnPacketSent(k, sentTime, bytesInFlight, packetNumber, bytes, isRetransmittable))
  {
    SentKeepsWellFormed(k.sampler, sentTime, packetNumber, bytes, bytesInFlight, isRetransmittable);
  }

  /** The window that the send check uses stays within its bounds in every mode and recovery state. */
  lemma {:induction false} SendWindowInBounds(p: Params, k: Stack)
    requires ParamsOk(p) && Invariant(p, k)
    ensures p.minWindow <= CongestionWindow(p, k.sender) <= p.maxWindow
  {
  }
}
