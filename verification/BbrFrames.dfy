/**
 What each step of the BBR sender's event handler touches, and an event as the sequence of its
 steps (congestion_meta2/bbr_sender.go:402-502).
 */
module BbrFrames {
  import opened Arithmetic
  import opened BandwidthSamplers
  import opened BbrModel

  // ---------- The steps ----------

  lemma {:induction false} RoundOnly(s: Sender, lastAcked: int)
    ensures var t := CountRound(s, lastAcked);
            t == s.(roundTripCount := t.roundTripCount, currentRoundTripEnd := t.currentRoundTripEnd)
  {
  }

  lemma {:induction false} RecoveryOnly(s: Sender, lastAcked: int, hasLosses: bool, isRoundStart: bool)
    ensures var t := UpdateRecovery(s, lastAcked, hasLosses, isRoundStart);
            t == s.(recoveryState := t.recoveryState, endRecoveryAt := t.endRecoveryAt,
                    recoveryWindow := t.recoveryWindow, currentRoundTripEnd := t.currentRoundTripEnd)
  {
    hide AdvanceRecovery;
    AdvanceOnly(MarkLosses(s, hasLosses), lastAcked, hasLosses, isRoundStart);
  }

  lemma {:induction false} AdvanceOnly(s: Sender, lastAcked: int, hasLosses: bool, isRoundStart: bool)
    ensures var t := AdvanceRecovery(s, lastAcked, hasLosses, isRoundStart);
            t == s.(recoveryState := t.recoveryState,
                    recoveryWindow := t.recoveryWindow, currentRoundTripEnd := t.currentRoundTripEnd)
  {
    var t := AdvanceRecovery(s, lastAcked, hasLosses, isRoundStart);
    if s.recoveryState == NotInRecovery {
      assert hasLosses ==>
        t == s.(recoveryState := Conservation, recoveryWindow := 0, currentRoundTripEnd := s.lastSentPacket);
      assert !hasLosses ==> t == s;
    } else {
      assert t == s.(recoveryState := t.recoveryState);
    }
  }

  /** Accounting sets the flight, and what belongs to the round and the recovery. */
  lemma {:induction false} AccountOnly(s: Sender, e: Event)
    ensures var t := Account(s, e);
            && t == s.(bytesInFlight := t.bytesInFlight, roundTripCount := t.roundTripCount,
                       currentRoundTripEnd := t.currentRoundTripEnd, recoveryState := t.recoveryState,
                       endRecoveryAt := t.endRecoveryAt, recoveryWindow := t.recoveryWindow)
            && t.roundTripCount == s.roundTripCount + if StartsRound(s, e.acked) then 1 else 0
  {
    hide SumAcked, SumLost, UpdateRecovery;
    var counted := s.(bytesInFlight := e.priorInFlight - SumAcked(e.acked) - SumLost(e.lost));
    if e.acked != [] {
      var last := e.acked[|e.acked| - 1].packetNumber;
      RoundOnly(counted, last);
      RecoveryOnly(CountRound(counted, last), last, e.lost != [], StartsRound(counted, e.acked));
    }
  }

  /** Learning sets the round-trip estimate and what is known of app-limited samples. */
  lemma {:induction false} LearnOnly(s: Sender, sample: EventSample, now: nat)
    ensures var t, last := Learn(s, sample, now), sample.lastPacketSendState;
            && t == s.(minRtt := t.minRtt, minRttTimestamp := t.minRttTimestamp,
                       lastSampleIsAppLimited := t.lastSampleIsAppLimited,
                       hasNoAppLimitedSample := t.hasNoAppLimitedSample)
            && t.lastSampleIsAppLimited == (if last.isValid then last.isAppLimited else s.lastSampleIsAppLimited)
            && t.hasNoAppLimitedSample == (s.hasNoAppLimitedSample || (last.isValid && !last.isAppLimited))
  {
  }

  lemma {:induction false} GainCycleOnly(p: Params, s: Sender, bandwidth: nat, e: Event)
    ensures var t := UpdateGainCycle(p, s, bandwidth, e.rttMin, e.eventTime, e.priorInFlight, e.lost != []);
            t == s.(cycleCurrentOffset := t.cycleCurrentOffset, lastCycleStart := t.lastCycleStart,
                    pacingGain := t.pacingGain)
  {
    hide AdvancesCycle, GainAt;
  }

  lemma {:induction false} CheckOnly(s: Sender, bandwidth: nat, last: SendTimeState)
    ensures var t := CheckFullBandwidth(s, bandwidth, last);
            t == s.(isAtFullBandwidth := t.isAtFullBandwidth, bandwidthAtLastRound := t.bandwidthAtLastRound,
                    roundsWithoutBandwidthGain := t.roundsWithoutBandwidthGain)
  {
    hide GrowthTarget, ExitsStartupByLoss;
  }

  lemma {:induction false} ExitStartupOnly(p: Params, s: Sender, bandwidth: nat, rttMin: nat, now: nat, draw: nat)
    ensures var t := ExitStartupOrDrain(p, s, bandwidth, rttMin, now, draw);
            t == s.(mode := t.mode, pacingGain := t.pacingGain, congestionWindowGain := t.congestionWindowGain,
                    cycleCurrentOffset := t.cycleCurrentOffset, lastCycleStart := t.lastCycleStart)
  {
    hide TargetWindow, GainAt, CycleOffset;
  }

  /** The change of modes counts the losses, and sets the watch on the bandwidth, the mode, the gains and the cycle. */
  lemma {:induction false} ChangeModesOnly(p: Params, s: Sender, e: Event, bandwidth: nat, last: SendTimeState,
                                           isRoundStart: bool, bytesLost: int)
    ensures var t := ChangeModes(p, s, e, bandwidth, last, isRoundStart, bytesLost);
            t == CountLosses(s, e.lost != [], bytesLost).(
                   mode := t.mode, pacingGain := t.pacingGain, congestionWindowGain := t.congestionWindowGain,
                   cycleCurrentOffset := t.cycleCurrentOffset, lastCycleStart := t.lastCycleStart,
                   isAtFullBandwidth := t.isAtFullBandwidth, bandwidthAtLastRound := t.bandwidthAtLastRound,
                   roundsWithoutBandwidthGain := t.roundsWithoutBandwidthGain)
  {
    hide UpdateGainCycle, CheckFullBandwidth, ExitStartupOrDrain, CountLosses;
    var lossy := CountLosses(s, e.lost != [], bytesLost);
    GainCycleOnly(p, lossy, bandwidth, e);
    var cycled := if lossy.mode == ProbeBw
                  then UpdateGainCycle(p, lossy, bandwidth, e.rttMin, e.eventTime, e.priorInFlight, e.lost != [])
                  else lossy;
    CheckOnly(cycled, bandwidth, last);
    ExitStartupOnly(p, Checked(p, s, e, bandwidth, last, isRoundStart, bytesLost),
                    bandwidth, e.rttMin, e.eventTime, e.draw);
  }

  lemma {:induction false} EnterProbeBwOnly(s: Sender, now: nat, draw: nat)
    ensures var t := EnterProbeBw(s, now, draw);
            t == s.(mode := t.mode, pacingGain := t.pacingGain, congestionWindowGain := t.congestionWindowGain,
                    cycleCurrentOffset := t.cycleCurrentOffset, lastCycleStart := t.lastCycleStart)
  {
    hide GainAt, CycleOffset;
  }

  lemma {:induction false} StayInProbeRttOnly(p: Params, s: Sender, now: nat, isRoundStart: bool, draw: nat)
    ensures var t := StayInProbeRtt(p, s, now, isRoundStart, draw);
            t == s.(mode := t.mode, pacingGain := t.pacingGain, congestionWindowGain := t.congestionWindowGain,
                    cycleCurrentOffset := t.cycleCurrentOffset, lastCycleStart := t.lastCycleStart,
                    exitProbeRttAt := t.exitProbeRttAt, probeRttRoundPassed := t.probeRttRoundPassed,
                    minRttTimestamp := t.minRttTimestamp)
  {
    hide EnterProbeBw;
    EnterProbeBwOnly(s.(probeRttRoundPassed := s.probeRttRoundPassed || isRoundStart, minRttTimestamp := now),
                     now, draw);
  }

  lemma {:induction false} EnterProbeRttOnly(s: Sender, minRttExpired: bool)
    ensures var t := EnterProbeRtt(s, minRttExpired);
            t == s.(mode := t.mode, pacingGain := t.pacingGain, exitProbeRttAt := t.exitProbeRttAt)
  {
  }

  /** The PROBE_RTT step sets the mode with its gains, its schedule, the cycle and the estimate's time stamp. */
  lemma {:induction false} ProbeRttOnly(p: Params, s: Sender, now: nat, isRoundStart: bool, minRttExpired: bool,
                                        draw: nat)
    ensures var t := UpdateProbeRtt(p, s, now, isRoundStart, minRttExpired, draw);
            t == s.(mode := t.mode, pacingGain := t.pacingGain, congestionWindowGain := t.congestionWindowGain,
                    cycleCurrentOffset := t.cycleCurrentOffset, lastCycleStart := t.lastCycleStart,
                    exitProbeRttAt := t.exitProbeRttAt, probeRttRoundPassed := t.probeRttRoundPassed,
                    minRttTimestamp := t.minRttTimestamp, exitingQuiescence := false)
  {
    hide EnterProbeRtt, StayInProbeRtt;
    EnterProbeRttOnly(s, minRttExpired);
    StayInProbeRttOnly(p, EnterProbeRtt(s, minRttExpired), now, isRoundStart, draw);
  }

  lemma {:induction false} PacingRateOnly(p: Params, s: Sender, bandwidth: nat, rttMin: nat)
    ensures UpdatePacingRate(p, s, bandwidth, rttMin)
         == s.(pacingRate := UpdatePacingRate(p, s, bandwidth, rttMin).pacingRate)
  {
    hide Scale;
  }

  lemma {:induction false} CongestionWindowOnly(p: Params, s: Sender, bandwidth: nat, rttMin: nat,
                                                bytesAcked: int, totalBytesAcked: nat, maxAckHeight: nat)
    ensures var t := UpdateCongestionWindow(p, s, bandwidth, rttMin, bytesAcked, totalBytesAcked, maxAckHeight);
            t == s.(congestionWindow := t.congestionWindow)
  {
    hide TargetWindow;
  }

  lemma {:induction false} RecoveryWindowOnly(p: Params, s: Sender, bytesAcked: int, bytesLost: int)
    ensures var t := UpdateRecoveryWindow(p, s, bytesAcked, bytesLost);
            t == s.(recoveryWindow := t.recoveryWindow)
  {
    hide Max;
  }

  /** Recomputing the limits sets the limits, and nothing else. */
  lemma {:induction false} LimitsOnly(p: Params, s: Sender, e: Event, bandwidth: nat,
                                      bytesAcked: int, totalBytesAcked: nat, bytesLost: int)
    ensures var t := Recalculate(p, s, e, bandwidth, bytesAcked, totalBytesAcked, bytesLost);
            t == s.(pacingRate := t.pacingRate, congestionWindow := t.congestionWindow,
                    recoveryWindow := t.recoveryWindow)
  {
    hide UpdatePacingRate, UpdateCongestionWindow, UpdateRecoveryWindow;
    PacingRateOnly(p, s, bandwidth, e.rttMin);
    var paced := UpdatePacingRate(p, s, bandwidth, e.rttMin);
    CongestionWindowOnly(p, paced, bandwidth, e.rttMin, bytesAcked, totalBytesAcked, e.maxAckHeight);
    var sized := UpdateCongestionWindow(p, paced, bandwidth, e.rttMin, bytesAcked, totalBytesAcked, e.maxAckHeight);
    RecoveryWindowOnly(p, sized, bytesAcked, bytesLost);
  }

  lemma {:induction false} ResetOnly(s: Sender, isRoundStart: bool)
    ensures ResetLosses(s, isRoundStart)
         == s.(numLossEventsInRound := if isRoundStart then 0 else s.numLossEventsInRound,
               bytesLostInRound := if isRoundStart then 0 else s.bytesLostInRound)
  {
  }

  // ---------- An event as its steps ----------

  /** What the sender looks like after each step of an event, and what passes between the steps. */
  datatype Steps = Steps(
    accounted: Sender, learned: Sender, changed: Sender, probed: Sender, recalculated: Sender,
    sample: EventSample, bandwidth: nat, minRttExpired: bool, bytesAcked: int, totalBytesAcked: nat, bytesLost: int)

  ghost predicate AreSteps(p: Params, k: Stack, e: Event, d: Steps)
    requires WellFormed(k.sampler)
  {
    var isRoundStart := StartsRound(k.sender, e.acked);
    var (sampled, sample) := SampledEvent(p, k, e);
    && d.sample == sample && d.totalBytesAcked == sampled.totalBytesAcked
    && d.bytesAcked == sampled.totalBytesAcked - k.sampler.totalBytesAcked
    && d.bytesLost == sampled.totalBytesLost - k.sampler.totalBytesLost
    && d.bandwidth == Filtered(k.filter, sample, d.accounted.roundTripCount, d.bytesAcked != 0)[0].sample
    && d.minRttExpired == (sample.sampleRtt.Some? && MinRttExpired(d.accounted, e.eventTime))
    && d.accounted == Account(k.sender, e)
    && d.learned == Learn(d.accounted, sample, e.eventTime)
    && d.changed == ChangeModes(p, d.learned, e, d.bandwidth, sample.lastPacketSendState, isRoundStart, d.bytesLost)
    && d.probed == UpdateProbeRtt(p, d.changed, e.eventTime, isRoundStart, d.minRttExpired, e.draw)
    && d.recalculated == Recalculate(p, d.probed, e, d.bandwidth, d.bytesAcked, d.totalBytesAcked, d.bytesLost)
  }

  /** The event handler is the sequence of its steps. */
  lemma {:induction false} EventIsItsSteps(p: Params, k: Stack, e: Event) returns (d: Steps)
    requires WellFormed(k.sampler) && NonEmpty(e)
    ensures AreSteps(p, k, e, d)
    ensures var k' := OnCongestionEvent(p, k, e);
            && k'.sender == ResetLosses(d.recalculated, StartsRound(k.sender, e.acked))
            && k'.filter == Filtered(k.filter, d.sample, d.accounted.roundTripCount, d.bytesAcked != 0)
            && k'.sampler.totalBytesAcked == d.totalBytesAcked
            && k'.sampler == Obsoleted(if EnterProbeRtt(d.changed, d.minRttExpired).mode == ProbeRtt
                                       then LimitedByApp(SampledEvent(p, k, e).0) else SampledEvent(p, k, e).0,
                                       LeastUnacked(e))
  {
    hide Account, Learn, ChangeModes, UpdateProbeRtt, Recalculate, Filtered, SampledEvent, EnterProbeRtt, MinRttExpired,
         StartsRound, WellFormed, LeastUnacked, ResetLosses;
    var (observed, l) := Observe(p, k, e);
    var bandwidth := observed.filter[0].sample;
    var changed := ChangeModes(p, observed.sender, e, bandwidth, l.last, l.isRoundStart, l.bytesLost);
    var probed := UpdateProbeRtt(p, changed, e.eventTime, l.isRoundStart, l.minRttExpired, e.draw);
    d := Steps(Account(k.sender, e), observed.sender, changed, probed,
               Recalculate(p, probed, e, bandwidth, l.bytesAcked, observed.sampler.totalBytesAcked, l.bytesLost),
               SampledEvent(p, k, e).1, bandwidth, l.minRttExpired,
               l.bytesAcked, observed.sampler.totalBytesAcked, l.bytesLost);
  }
}
