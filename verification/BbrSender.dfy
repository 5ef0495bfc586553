/**
 The BBR sender object of congestion_meta2/bbr_sender.go: a mutable object over a filter and
 a sampler object, each of whose methods is proved to take the model's step.
 */
module BbrSenders {
  import opened Arithmetic
  import opened PacketQueues
  import opened BandwidthSamplers
  import opened WindowedFilters
  import opened BbrModel

  class BbrSender {
    const params: Params
    const maxBandwidth: WindowedFilter
    const sampler: BandwidthSampler

    var mode: Mode
    var roundTripCount: nat
    var lastSentPacket: int
    var currentRoundTripEnd: int
    var numLossEventsInRound: nat
    var bytesLostInRound: int
    var minRtt: int
    var minRttTimestamp: nat
    var congestionWindow: int
    var pacingRate: int
    var pacingGain: real
    var congestionWindowGain: real
    var cycleCurrentOffset: nat
    var lastCycleStart: nat
    var isAtFullBandwidth: bool
    var roundsWithoutBandwidthGain: nat
    var bandwidthAtLastRound: nat
    var exitingQuiescence: bool
    var exitProbeRttAt: nat
    var probeRttRoundPassed: bool
    var lastSampleIsAppLimited: bool
    var hasNoAppLimitedSample: bool
    var recoveryState: Recovery
    var endRecoveryAt: int
    var recoveryWindow: int
    var maxDatagramSize: nat
    var bytesInFlight: int

    ghost function Repr(): set<object>
      reads this, maxBandwidth, sampler, sampler.connectionStateMap, sampler.connectionStateMap.entries
    {
      {this, maxBandwidth, maxBandwidth.estimates} + sampler.Repr()
    }

    ghost predicate Valid()
      reads Repr()
    {
      && this !in sampler.Repr() && maxBandwidth !in sampler.Repr() && maxBandwidth.estimates !in sampler.Repr()
      && maxBandwidth.Valid() && maxBandwidth.windowLength == BANDWIDTH_WINDOW_SIZE
      && sampler.Valid()
    }

    /** The sender's own fields. */
    ghost function Core(): Sender
      reads this
    {
      Sender(mode, roundTripCount, lastSentPacket, currentRoundTripEnd, numLossEventsInRound, bytesLostInRound,
             minRtt, minRttTimestamp, congestionWindow, pacingRate, pacingGain, congestionWindowGain,
             cycleCurrentOffset, lastCycleStart, isAtFullBandwidth, roundsWithoutBandwidthGain, bandwidthAtLastRound,
             exitingQuiescence, exitProbeRttAt, probeRttRoundPassed, lastSampleIsAppLimited, hasNoAppLimitedSample,
             recoveryState, endRecoveryAt, recoveryWindow, maxDatagramSize, bytesInFlight)
    }

    ghost function Model(): Stack
      requires Valid()
      reads Repr()
    {
      Stack(Core(), maxBandwidth.State(), sampler.Model())
    }

    constructor (params: Params, initialMaxDatagramSize: nat)
      ensures Valid() && fresh(Repr()) && this.params == params
      ensures Model() == InitialStack(params, initialMaxDatagramSize)
    {
      hide BandwidthSampler.Valid, BandwidthSampler.Model, WindowedFilter.State;
      this.params := params;
      maxBandwidth := new WindowedFilter(BANDWIDTH_WINDOW_SIZE);
      sampler := new BandwidthSampler();
      roundTripCount, lastSentPacket, currentRoundTripEnd := 0, INVALID_PACKET_NUMBER, INVALID_PACKET_NUMBER;
      numLossEventsInRound, bytesLostInRound := 0, 0;
      minRtt, minRttTimestamp := 0, UNSET_TIME;
      congestionWindow, recoveryWindow := params.initialWindow, params.maxWindow;
      pacingRate := 0;
      cycleCurrentOffset, lastCycleStart := 0, UNSET_TIME;
      isAtFullBandwidth, roundsWithoutBandwidthGain, bandwidthAtLastRound := false, 0, 0;
      exitingQuiescence, exitProbeRttAt, probeRttRoundPassed := false, UNSET_TIME, false;
      lastSampleIsAppLimited, hasNoAppLimitedSample := false, false;
      recoveryState, endRecoveryAt := NotInRecovery, INVALID_PACKET_NUMBER;
      maxDatagramSize, bytesInFlight := initialMaxDatagramSize, 0;
      mode, pacingGain, congestionWindowGain := Startup, HIGH_GAIN, HIGH_CWND_GAIN;
    }

    // ---------- Reading ----------

    function GetCongestionWindow(): (window: int)
      reads this
      ensures window == CongestionWindow(params, Core())
    {
      if mode == ProbeRtt then params.minWindow
      else if recoveryState != NotInRecovery then Min(congestionWindow, recoveryWindow)
      else congestionWindow
    }

    predicate CanSend(bytesInFlight: int)
      reads this
      ensures CanSend(bytesInFlight) <==> bytesInFlight < CongestionWindow(params, Core())
    {
      bytesInFlight < GetCongestionWindow()
    }

    function BandwidthEstimate(): (bandwidth: nat)
      requires maxBandwidth.Valid()
      reads this, maxBandwidth, maxBandwidth.estimates
      ensures bandwidth == maxBandwidth.State()[0].sample
    {
      maxBandwidth.GetBest()
    }

    function GetMinRtt(rttMin: nat): (rtt: int)
      reads this
      ensures rtt == MinRttOf(Core(), rttMin)
    {
      if minRtt != 0 then minRtt
      else if rttMin == 0 then 100 * MILLISECOND
      else rttMin
    }

    function GetTargetCongestionWindow(rttMin: nat, gain: real): (window: int)
      requires maxBandwidth.Valid()
      reads this, maxBandwidth, maxBandwidth.estimates
      ensures window == TargetWindow(params, Core(), maxBandwidth.State()[0].sample, rttMin, gain)
    {
      var bdp := Bdp(GetMinRtt(rttMin), BandwidthEstimate());
      var window := Scale(gain, bdp);
      Max(if window == 0 then Scale(gain, params.initialWindow) else window, params.minWindow)
    }

    // ---------- Sending ----------

    method OnPacketSent(sentTime: nat, bytesInFlight: nat, packetNumber: nat, bytes: nat, isRetransmittable: bool)
      requires Valid()
      modifies Repr()
      ensures Valid() && fresh(Repr() - old(Repr()))
      ensures Model()
           == BbrModel.OnPacketSent(old(Model()), sentTime, bytesInFlight, packetNumber, bytes, isRetransmittable)
    {
      hide BandwidthSampler.Valid, BandwidthSampler.Model, Sent, PacketSent, Core;
      NotePacketSent(packetNumber, bytesInFlight);
      sampler.OnPacketSent(sentTime, packetNumber, bytes, bytesInFlight, isRetransmittable);
    }

    /** The sender's own part of a send. */
    method NotePacketSent(packetNumber: nat, bytesInFlight: nat)
      modifies this
      ensures Core() == PacketSent(old(Core()), packetNumber, bytesInFlight)
    {
      lastSentPacket := packetNumber;
      this.bytesInFlight := bytesInFlight;
      if bytesInFlight == 0 {
        exitingQuiescence := true;
      }
    }

    method SetMaxDatagramSize(size: nat)
      requires size >= maxDatagramSize
      modifies this
      ensures Core() == old(Core()).(maxDatagramSize := size)
    {
      var cwndIsMinCwnd := congestionWindow == params.minWindow;
      maxDatagramSize := size;
      if cwndIsMinCwnd {
        congestionWindow := params.minWindow;
      }
    }

    // ---------- The steps of the event handler ----------

    method MaybeAppLimited(bytesInFlight: int)
      requires Valid()
      modifies sampler
      ensures Valid() && Repr() == old(Repr())
      ensures Core() == old(Core()) && maxBandwidth.State() == old(maxBandwidth.State())
      ensures sampler.Model() == if IsAppLimited(params, Core(), bytesInFlight) then LimitedByApp(old(sampler.Model()))
                                 else old(sampler.Model())
    {
      hide BandwidthSampler.Valid, BandwidthSampler.Model;
      var window := GetCongestionWindow();
      if bytesInFlight >= window {
        return;
      }
      var availableBytes := window - bytesInFlight;
      var drainLimited := mode == Drain && bytesInFlight > window / 2;
      if !drainLimited || availableBytes > MAX_BURST_PACKETS * maxDatagramSize {
        sampler.OnAppLimited();
      }
    }

    method UpdateBytesInFlight(priorInFlight: nat, acked: seq<AckedPacket>, lost: seq<LostPacket>)
      modifies `bytesInFlight
      ensures Core() == old(Core()).(bytesInFlight := priorInFlight - SumAcked(acked) - SumLost(lost))
    {
      bytesInFlight := priorInFlight;
      for i := 0 to |acked|
        invariant bytesInFlight == priorInFlight - SumAcked(acked[..i])
      {
        assert acked[..i + 1][..i] == acked[..i];
        bytesInFlight := bytesInFlight - acked[i].bytesAcked;
      }
      assert acked[..|acked|] == acked;
      for i := 0 to |lost|
        invariant bytesInFlight == priorInFlight - SumAcked(acked) - SumLost(lost[..i])
      {
        assert lost[..i + 1][..i] == lost[..i];
        bytesInFlight := bytesInFlight - lost[i].bytesLost;
      }
      assert lost[..|lost|] == lost;
    }

    method UpdateRoundTripCounter(lastAckedPacket: nat) returns (isRoundStart: bool)
      modifies this
      ensures isRoundStart == IsRoundStart(old(Core()), lastAckedPacket)
      ensures Core() == CountRound(old(Core()), lastAckedPacket)
    {
      if currentRoundTripEnd == INVALID_PACKET_NUMBER || lastAckedPacket > currentRoundTripEnd {
        roundTripCount := roundTripCount + 1;
        currentRoundTripEnd := lastSentPacket;
        return true;
      }
      return false;
    }

    method UpdateRecoveryState(lastAckedPacket: nat, hasLosses: bool, isRoundStart: bool)
      modifies this
      ensures Core() == UpdateRecovery(old(Core()), lastAckedPacket, hasLosses, isRoundStart)
    {
      hide AdvanceRecovery;
      if !isAtFullBandwidth {
        return;
      }
      if hasLosses {
        endRecoveryAt := lastSentPacket;
      }
      SwitchRecoveryState(lastAckedPacket, hasLosses, isRoundStart);
    }

    /** The state switch of the step above. */
    method SwitchRecoveryState(lastAckedPacket: nat, hasLosses: bool, isRoundStart: bool)
      modifies this
      ensures Core() == AdvanceRecovery(old(Core()), lastAckedPacket, hasLosses, isRoundStart)
    {
      if recoveryState == NotInRecovery {
        if hasLosses {
          recoveryState := Conservation;
          recoveryWindow := 0;
          currentRoundTripEnd := lastSentPacket;
        }
      } else {
        if recoveryState == Conservation && isRoundStart {
          recoveryState := Growth;
        }
        if !hasLosses && lastAckedPacket > endRecoveryAt {
          recoveryState := NotInRecovery;
        }
      }
    }

    method MaybeUpdateMinRtt(now: nat, sampleMinRtt: int) returns (minRttExpired: bool)
      modifies this
      ensures minRttExpired == MinRttExpired(old(Core()), now)
      ensures Core() == UpdateMinRtt(old(Core()), now, sampleMinRtt)
    {
      minRttExpired := minRtt != 0 && now > minRttTimestamp + MIN_RTT_EXPIRY;
      if minRttExpired || sampleMinRtt < minRtt || minRtt == 0 {
        minRtt := sampleMinRtt;
        minRttTimestamp := now;
      }
    }

    method UpdateGainCyclePhase(now: nat, priorInFlight: nat, hasLosses: bool, rttMin: nat)
      requires maxBandwidth.Valid() && mode == ProbeBw
      modifies this
      ensures Core() == UpdateGainCycle(params, old(Core()), BandwidthEstimate(), rttMin, now, priorInFlight, hasLosses)
    {
      hide TargetWindow, GainAt;
      var shouldAdvanceGainCycling := now > lastCycleStart + GetMinRtt(rttMin);
      if pacingGain > 1.0 && !hasLosses && priorInFlight < GetTargetCongestionWindow(rttMin, pacingGain) {
        shouldAdvanceGainCycling := false;
      }
      if pacingGain < 1.0 && bytesInFlight <= GetTargetCongestionWindow(rttMin, 1.0) {
        shouldAdvanceGainCycling := true;
      }
      if shouldAdvanceGainCycling {
        StartCycle(now, (cycleCurrentOffset + 1) % GAIN_CYCLE_LENGTH);
      }
    }

    method CheckIfFullBandwidthReached(lastPacketSendState: SendTimeState)
      requires maxBandwidth.Valid()
      modifies this
      ensures Core() == CheckFullBandwidth(old(Core()), BandwidthEstimate(), lastPacketSendState)
    {
      hide Scale;
      if lastSampleIsAppLimited {
        return;
      }
      var target := Scale(STARTUP_GROWTH_TARGET, bandwidthAtLastRound);
      if BandwidthEstimate() >= target {
        bandwidthAtLastRound := BandwidthEstimate();
        roundsWithoutBandwidthGain := 0;
        return;
      }
      roundsWithoutBandwidthGain := roundsWithoutBandwidthGain + 1;
      if roundsWithoutBandwidthGain >= NUM_STARTUP_RTTS || ShouldExitStartupDueToLoss(lastPacketSendState) {
        isAtFullBandwidth := true;
      }
    }

    predicate ShouldExitStartupDueToLoss(last: SendTimeState)
      reads this
      ensures ShouldExitStartupDueToLoss(last) == ExitsStartupByLoss(Core(), last)
    {
      if numLossEventsInRound < STARTUP_FULL_LOSS_COUNT || !last.isValid then false
      else last.bytesInFlight > 0 && bytesLostInRound > 0
           && bytesLostInRound > Scale(LOSS_THRESHOLD, last.bytesInFlight)
    }

    method EnterStartupMode()
      modifies this
      ensures Core() == EnterStartup(old(Core()))
    {
      mode := Startup;
      pacingGain := HIGH_GAIN;
      congestionWindowGain := HIGH_CWND_GAIN;
    }

    method EnterProbeBandwidthMode(now: nat, draw: nat)
      modifies this
      ensures Core() == EnterProbeBw(old(Core()), now, draw)
    {
      hide GainAt, CycleOffset;
      mode := ProbeBw;
      congestionWindowGain := CWND_GAIN;
      StartCycle(now, CycleOffset(draw));
    }

    /** Starts a phase of the gain cycle. */
    method StartCycle(now: nat, offset: nat)
      requires offset < GAIN_CYCLE_LENGTH
      modifies this
      ensures Core() == old(Core()).(cycleCurrentOffset := offset, lastCycleStart := now, pacingGain := GainAt(offset))
    {
      hide GainAt;
      cycleCurrentOffset := offset;
      lastCycleStart := now;
      pacingGain := GainAt(offset);
    }

    method MaybeExitStartupOrDrain(now: nat, rttMin: nat, draw: nat)
      requires maxBandwidth.Valid()
      modifies this
      ensures Core() == ExitStartupOrDrain(params, old(Core()), BandwidthEstimate(), rttMin, now, draw)
    {
      hide TargetWindow, EnterProbeBw, ExitStartup;
      MaybeExitStartup();
      if mode == Drain && bytesInFlight <= GetTargetCongestionWindow(rttMin, 1.0) {
        EnterProbeBandwidthMode(now, draw);
      }
    }

    /** The part of the step above that leaves STARTUP. */
    method MaybeExitStartup()
      modifies this
      ensures Core() == ExitStartup(old(Core()))
    {
      if mode == Startup && isAtFullBandwidth {
        mode := Drain;
        pacingGain := DRAIN_GAIN;
        congestionWindowGain := HIGH_CWND_GAIN;
      }
    }

    method MaybeEnterOrExitProbeRtt(now: nat, isRoundStart: bool, minRttExpired: bool, draw: nat)
      requires Valid()
      modifies this, sampler
      ensures Valid() && Repr() == old(Repr()) && maxBandwidth.State() == old(maxBandwidth.State())
      ensures Core() == UpdateProbeRtt(params, old(Core()), now, isRoundStart, minRttExpired, draw)
      ensures sampler.Model() == if EnterProbeRtt(old(Core()), minRttExpired).mode == ProbeRtt
                                 then LimitedByApp(old(sampler.Model())) else old(sampler.Model())
    {
      hide BandwidthSampler.Valid, BandwidthSampler.Model, StayInProbeRtt, EnterProbeRtt, LimitedByApp;
      MaybeEnterProbeRtt(minRttExpired);
      if mode == ProbeRtt {
        sampler.OnAppLimited();
        MaybeExitProbeRtt(now, isRoundStart, draw);
      }
      exitingQuiescence := false;
    }

    /** The part of the step above that enters PROBE_RTT. */
    method MaybeEnterProbeRtt(minRttExpired: bool)
      modifies this
      ensures Core() == EnterProbeRtt(old(Core()), minRttExpired)
    {
      if minRttExpired && !exitingQuiescence && mode != ProbeRtt {
        mode := ProbeRtt;
        pacingGain := 1.0;
        exitProbeRttAt := UNSET_TIME;
      }
    }

    /** The part of the step above that schedules and takes the exit. */
    method MaybeExitProbeRtt(now: nat, isRoundStart: bool, draw: nat)
      requires mode == ProbeRtt
      modifies this
      ensures Core() == StayInProbeRtt(params, old(Core()), now, isRoundStart, draw)
    {
      hide EnterProbeBw, EnterStartup;
      if exitProbeRttAt == UNSET_TIME {
        if bytesInFlight < params.minWindow + params.maxPacketBufferSize {
          exitProbeRttAt := now + PROBE_RTT_TIME;
          probeRttRoundPassed := false;
        }
      } else {
        if isRoundStart {
          probeRttRoundPassed := true;
        }
        if now >= exitProbeRttAt && probeRttRoundPassed {
          minRttTimestamp := now;
          if !isAtFullBandwidth {
            EnterStartupMode();
          } else {
            EnterProbeBandwidthMode(now, draw);
          }
        }
      }
    }

    method CalculatePacingRate(rttMin: nat)
      requires maxBandwidth.Valid()
      modifies this
      ensures Core() == UpdatePacingRate(params, old(Core()), BandwidthEstimate(), rttMin)
    {
      hide Scale, BandwidthFromDelta;
      if BandwidthEstimate() == 0 {
        return;
      }
      var targetRate := Scale(pacingGain, BandwidthEstimate());
      if isAtFullBandwidth {
        pacingRate := targetRate;
        return;
      }
      if pacingRate == 0 && rttMin != 0 {
        pacingRate := BandwidthFromDelta(params.initialWindow, rttMin);
        return;
      }
      pacingRate := Max(pacingRate, targetRate);
    }

    method CalculateCongestionWindow(bytesAcked: int, totalBytesAcked: nat, rttMin: nat, maxAckHeight: nat)
      requires maxBandwidth.Valid()
      modifies this
      ensures Core() == UpdateCongestionWindow(params, old(Core()), BandwidthEstimate(), rttMin,
                                               bytesAcked, totalBytesAcked, maxAckHeight)
    {
      hide TargetWindow;
      if mode == ProbeRtt {
        return;
      }
      var targetWindow := GetTargetCongestionWindow(rttMin, congestionWindowGain);
      if isAtFullBandwidth {
        targetWindow := targetWindow + maxAckHeight;
      }
      if isAtFullBandwidth {
        congestionWindow := Min(targetWindow, congestionWindow + bytesAcked);
      } else if congestionWindow < targetWindow || totalBytesAcked < params.initialWindow {
        congestionWindow := congestionWindow + bytesAcked;
      }
      congestionWindow := Max(congestionWindow, params.minWindow);
      congestionWindow := Min(congestionWindow, params.maxWindow);
    }

    method CalculateRecoveryWindow(bytesAcked: int, bytesLost: int)
      modifies this
      ensures Core() == UpdateRecoveryWindow(params, old(Core()), bytesAcked, bytesLost)
    {
      if recoveryState == NotInRecovery {
        return;
      }
      if recoveryWindow == 0 {
        recoveryWindow := bytesInFlight + bytesAcked;
        recoveryWindow := Max(params.minWindow, recoveryWindow);
        return;
      }
      if recoveryWindow >= bytesLost {
        recoveryWindow := recoveryWindow - bytesLost;
      } else {
        recoveryWindow := maxDatagramSize;
      }
      if recoveryState == Growth {
        recoveryWindow := recoveryWindow + bytesAcked;
      }
      recoveryWindow := Max(recoveryWindow, bytesInFlight + bytesAcked);
      recoveryWindow := Max(params.minWindow, recoveryWindow);
    }

    // ---------- The event handler ----------

    /** The flight is recounted, then the acks may advance the round and the recovery. */
    method AccountForEvent(e: Event) returns (isRoundStart: bool)
      modifies this
      ensures isRoundStart == StartsRound(old(Core()), e.acked)
      ensures Core() == Account(old(Core()), e)
    {
      hide SumAcked, SumLost, UpdateRecovery, CountRound, IsRoundStart;
      UpdateBytesInFlight(e.priorInFlight, e.acked, e.lost);
      isRoundStart := false;
      if |e.acked| != 0 {
        var lastAckedPacket := e.acked[|e.acked| - 1].packetNumber;
        SameRoundStart(old(Core()), Core(), lastAckedPacket);
        isRoundStart := UpdateRoundTripCounter(lastAckedPacket);
        UpdateRecoveryState(lastAckedPacket, |e.lost| != 0, isRoundStart);
      }
    }

    /** The filter and the sender take in what the sampler reports. */
    method LearnFromSample(sample: EventSample, now: nat, anyAcked: bool) returns (minRttExpired: bool)
      requires maxBandwidth.Valid() && maxBandwidth.windowLength == BANDWIDTH_WINDOW_SIZE
      modifies this, maxBandwidth.estimates
      ensures minRttExpired == (sample.sampleRtt.Some? && MinRttExpired(old(Core()), now))
      ensures Core() == Learn(old(Core()), sample, now)
      ensures maxBandwidth.State() == Filtered(old(maxBandwidth.State()), sample, old(Core()).roundTripCount, anyAcked)
    {
      hide Updated;
      if sample.lastPacketSendState.isValid {
        lastSampleIsAppLimited := sample.lastPacketSendState.isAppLimited;
        hasNoAppLimitedSample := hasNoAppLimitedSample || !lastSampleIsAppLimited;
      }
      assert Core() == NoteSample(old(Core()), sample);
      if anyAcked {
        if !sample.sampleIsAppLimited || sample.sampleMaxBandwidth > maxBandwidth.GetBest() {
          maxBandwidth.Update(sample.sampleMaxBandwidth, roundTripCount);
        }
      }
      minRttExpired := false;
      if sample.sampleRtt.Some? {
        minRttExpired := MaybeUpdateMinRtt(now, sample.sampleRtt.value);
      }
    }

    /** The steps specific to PROBE_BW, STARTUP and DRAIN. */
    method UpdateModes(e: Event, lastPacketSendState: SendTimeState, isRoundStart: bool, bytesLost: int)
      requires maxBandwidth.Valid()
      modifies this
      ensures Core() == ChangeModes(params, old(Core()), e, BandwidthEstimate(), lastPacketSendState,
                                    isRoundStart, bytesLost)
    {
      hide UpdateGainCycle, CheckFullBandwidth, ExitStartupOrDrain;
      if |e.lost| != 0 {
        numLossEventsInRound := numLossEventsInRound + 1;
        bytesLostInRound := bytesLostInRound + bytesLost;
      }
      assert Core() == CountLosses(old(Core()), e.lost != [], bytesLost);
      if mode == ProbeBw {
        UpdateGainCyclePhase(e.eventTime, e.priorInFlight, |e.lost| != 0, e.rttMin);
      }
      if isRoundStart && !isAtFullBandwidth {
        CheckIfFullBandwidthReached(lastPacketSendState);
      }
      MaybeExitStartupOrDrain(e.eventTime, e.rttMin, e.draw);
    }

    /** Pacing rate, congestion window and recovery window, recomputed. */
    method RecalculateLimits(e: Event, bytesAcked: int, totalBytesAcked: nat, bytesLost: int)
      requires maxBandwidth.Valid()
      modifies this
      ensures Core() == Recalculate(params, old(Core()), e, BandwidthEstimate(), bytesAcked, totalBytesAcked, bytesLost)
    {
      hide UpdatePacingRate, UpdateCongestionWindow, UpdateRecoveryWindow;
      CalculatePacingRate(e.rttMin);
      CalculateCongestionWindow(bytesAcked, totalBytesAcked, e.rttMin, e.maxAckHeight);
      CalculateRecoveryWindow(bytesAcked, bytesLost);
    }

    method OnCongestionEventEx(e: Event)
      requires Valid() && WellFormed(sampler.Model()) && NonEmpty(e)
      modifies Repr()
      ensures Valid() && fresh(Repr() - old(Repr()))
      ensures Model() == OnCongestionEvent(params, old(Model()), e)
    {
      hide BandwidthSampler.Valid, BandwidthSampler.Model, Observe, Adapt, Core;
      var lesson := ObserveEvent(e);
      AdaptToEvent(e, lesson);
    }

    /** The flight, the round, the recovery and the sample of an event. */
    method SampleEvent(e: Event) returns (isRoundStart: bool, sample: EventSample)
      requires Valid() && WellFormed(sampler.Model())
      modifies this, sampler
      ensures Valid() && Repr() == old(Repr()) && maxBandwidth.State() == old(maxBandwidth.State())
      ensures isRoundStart == StartsRound(old(Core()), e.acked) && Core() == Account(old(Core()), e)
      ensures (sampler.Model(), sample) == SampledEvent(params, old(Model()), e)
    {
      hide BandwidthSampler.Valid, BandwidthSampler.Model, Account, StartsRound, CongestionEvent, LimitedByApp,
           IsAppLimited, WellFormed, Core, WindowedFilter.State, WindowedFilter.Valid;
      OthersKeepWellFormed(sampler.Model(), 0, 0, 0);
      MaybeAppLimited(e.priorInFlight);
      isRoundStart := AccountForEvent(e);
      sample := sampler.OnCongestionEvent(e.eventTime, e.acked, e.lost);
    }

    /** The first half of the event handler. */
    method ObserveEvent(e: Event) returns (lesson: Lesson)
      requires Valid() && WellFormed(sampler.Model())
      modifies this, sampler, maxBandwidth.estimates
      ensures Valid() && Repr() == old(Repr())
      ensures (Model(), lesson) == Observe(params, old(Model()), e)
    {
      hide BandwidthSampler.Valid, BandwidthSampler.Model, Account, Learn, Filtered, MinRttExpired, StartsRound,
           SampledEvent, WellFormed, Core;
      var totalBytesAckedBefore, totalBytesLostBefore := sampler.TotalBytesAcked(), sampler.TotalBytesLost();
      var isRoundStart, sample := SampleEvent(e);
      var bytesAcked := sampler.TotalBytesAcked() - totalBytesAckedBefore;
      var bytesLost := sampler.TotalBytesLost() - totalBytesLostBefore;
      var minRttExpired := LearnFromSample(sample, e.eventTime, bytesAcked != 0);
      lesson := Lesson(sample.lastPacketSendState, isRoundStart, minRttExpired, bytesAcked, bytesLost);
    }

    /** The second half of the event handler. */
    method AdaptToEvent(e: Event, lesson: Lesson)
      requires Valid() && NonEmpty(e)
      modifies Repr()
      ensures Valid() && fresh(Repr() - old(Repr()))
      ensures Model() == Adapt(params, old(Model()), e, lesson)
    {
      hide BandwidthSampler.Valid, BandwidthSampler.Model, ChangeModes, UpdateProbeRtt, Recalculate, EnterProbeRtt,
           Obsoleted, LimitedByApp, ResetLosses, Core,
           WindowedFilter.State, WindowedFilter.Valid, BandwidthEstimate, LeastUnacked;
      var totalBytesAcked := sampler.TotalBytesAcked();
      UpdateModes(e, lesson.last, lesson.isRoundStart, lesson.bytesLost);
      MaybeEnterOrExitProbeRtt(e.eventTime, lesson.isRoundStart, lesson.minRttExpired, e.draw);
      RecalculateLimits(e, lesson.bytesAcked, totalBytesAcked, lesson.bytesLost);
      CleanUp(LeastUnacked(e), lesson.isRoundStart);
    }

    /** Drops obsolete packets, and restarts the loss counters with a round. */
    method CleanUp(leastUnacked: int, isRoundStart: bool)
      requires Valid()
      modifies Repr()
      ensures Valid() && fresh(Repr() - old(Repr()))
      ensures Core() == ResetLosses(old(Core()), isRoundStart) && maxBandwidth.State() == old(maxBandwidth.State())
      ensures sampler.Model() == Obsoleted(old(sampler.Model()), leastUnacked)
    {
      hide BandwidthSampler.Valid, BandwidthSampler.Model, Obsoleted, ResetLosses, Core, WindowedFilter.State,
           WindowedFilter.Valid;
      sampler.RemoveObsoletePackets(leastUnacked);
      ResetLossCounters(isRoundStart);
    }

    method ResetLossCounters(isRoundStart: bool)
      modifies this
      ensures Core() == ResetLosses(old(Core()), isRoundStart)
    {
      if isRoundStart {
        numLossEventsInRound := 0;
        bytesLostInRound := 0;
      }
    }
  }
}
