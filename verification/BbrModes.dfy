/**
 The modes of the BBR sender, exactly: which mode an event leads to, when its sampler is told that
 the phase is app-limited, and the start of a gain cycle
 (congestion_meta2/bbr_sender.go:318-336, 605-630, 701-767).
 */
module BbrModes {
  import opened PacketQueues
  import opened BandwidthSamplers
  import opened BbrModel
  import opened BbrTargets
  import opened BbrFrames
  import opened BbrInvariants
  import opened BbrTraces
  import opened BbrPhases
  import opened BbrEstimates

  // ---------- One event ----------

  /** The round-trip estimate has expired at an event that samples one, and the sender is not leaving quiescence. */
  predicate EntersProbeRtt(s: Sender, sample: EventSample, now: nat) {
    && s.mode != ProbeRtt && sample.sampleRtt.Some? && !s.exitingQuiescence
    && s.minRtt != 0 && now > s.minRttTimestamp + 10_000_000_000
  }

  /** The schedule of PROBE_RTT has run out: its time, and a round. */
  predicate LeavesProbeRtt(s: Sender, now: nat, isRoundStart: bool) {
    && s.mode == ProbeRtt && s.exitProbeRttAt != UNSET_TIME && now >= s.exitProbeRttAt
    && (s.probeRttRoundPassed || isRoundStart)
  }

  /** The flight is down to one bandwidth-delay product. */
  predicate Drained(p: Params, t: Sender, bandwidth: nat, rttMin: nat) {
    t.bytesInFlight <= Aim(p, t, bandwidth, rttMin, 1.0)
  }

  /**
   The mode that an event leads to. STARTUP lasts until full bandwidth, DRAIN until the flight is
   down to one bandwidth-delay product, which may be at once; PROBE_BW goes on. PROBE_RTT interrupts
   all three, and leads back to PROBE_BW, or before full bandwidth to STARTUP.
   */
  ghost predicate ModeStep(p: Params, s: Sender, t: Sender, sample: EventSample, bandwidth: nat, e: Event) {
    t.mode ==
      if s.mode == ProbeRtt then
        if !LeavesProbeRtt(s, e.eventTime, StartsRound(s, e.acked)) then ProbeRtt
        else if t.isAtFullBandwidth then ProbeBw else Startup
      else if EntersProbeRtt(s, sample, e.eventTime) then ProbeRtt
      else if s.mode == ProbeBw then ProbeBw
      else if !t.isAtFullBandwidth then Startup
      else if Drained(p, t, bandwidth, e.rttMin) then ProbeBw
      else Drain
  }

  /**
   The schedule of PROBE_RTT: its end is set 200 milliseconds ahead by the first event that finds the
   flight below the minimum window and a packet, and a round has to start after that.
   */
  ghost predicate ScheduleStep(p: Params, s: Sender, t: Sender, now: nat, isRoundStart: bool) {
    t.mode == ProbeRtt ==>
      if s.mode == ProbeRtt && s.exitProbeRttAt != UNSET_TIME then
        && t.exitProbeRttAt == s.exitProbeRttAt
        && t.probeRttRoundPassed == (s.probeRttRoundPassed || isRoundStart)
      else if t.bytesInFlight < p.minWindow + p.maxPacketBufferSize then
        t.exitProbeRttAt == now + 200_000_000 && !t.probeRttRoundPassed
      else t.exitProbeRttAt == UNSET_TIME
  }

  lemma {:induction false} ExitStartupMode(p: Params, s: Sender, bandwidth: nat, rttMin: nat, now: nat, draw: nat)
    ensures var t := ExitStartupOrDrain(p, s, bandwidth, rttMin, now, draw);
            && t.mode == (if s.mode == ProbeBw || s.mode == ProbeRtt then s.mode
                          else if s.mode == Startup && !s.isAtFullBandwidth then Startup
                          else if Drained(p, t, bandwidth, rttMin) then ProbeBw
                          else Drain)
            && t.isAtFullBandwidth == s.isAtFullBandwidth
  {
    hide TargetWindow, Aim;
    var d := ExitStartup(s);
    TargetIsAim(p, d, bandwidth, rttMin, 1.0);
    SameAim(p, d, ExitStartupOrDrain(p, s, bandwidth, rttMin, now, draw), bandwidth, rttMin, 1.0);
  }

  lemma {:induction false} ChangeModesMode(p: Params, s: Sender, e: Event, bandwidth: nat, last: SendTimeState,
                                           isRoundStart: bool, bytesLost: int)
    requires ModesAgree(s)
    ensures var t := ChangeModes(p, s, e, bandwidth, last, isRoundStart, bytesLost);
            && t.mode == (if s.mode == ProbeBw || s.mode == ProbeRtt then s.mode
                          else if !t.isAtFullBandwidth then Startup
                          else if Drained(p, t, bandwidth, e.rttMin) then ProbeBw
                          else Drain)
            && t.exitingQuiescence == s.exitingQuiescence && t.minRtt == s.minRtt
  {
    hide UpdateGainCycle, ExitStartupOrDrain, CheckFullBandwidth, Drained;
    var lossy := CountLosses(s, e.lost != [], bytesLost);
    GainCycleOnly(p, lossy, bandwidth, e);
    var cycled := if lossy.mode == ProbeBw
                  then UpdateGainCycle(p, lossy, bandwidth, e.rttMin, e.eventTime, e.priorInFlight, e.lost != [])
                  else lossy;
    CheckOnly(cycled, bandwidth, last);
    var checked := Checked(p, s, e, bandwidth, last, isRoundStart, bytesLost);
    CheckKeepsFull(cycled, bandwidth, last);
    ExitStartupMode(p, checked, bandwidth, e.rttMin, e.eventTime, e.draw);
    ExitStartupOnly(p, checked, bandwidth, e.rttMin, e.eventTime, e.draw);
  }

  lemma {:induction false} CheckKeepsFull(s: Sender, bandwidth: nat, last: SendTimeState)
    ensures s.isAtFullBandwidth ==> CheckFullBandwidth(s, bandwidth, last).isAtFullBandwidth
  {
    hide GrowthTarget, ExitsStartupByLoss;
  }

  lemma {:induction false} StayInProbeRttMode(p: Params, s: Sender, now: nat, isRoundStart: bool, draw: nat)
    requires s.mode == ProbeRtt
    ensures var t := StayInProbeRtt(p, s, now, isRoundStart, draw);
            && t.mode == (if !LeavesProbeRtt(s, now, isRoundStart) then ProbeRtt
                          else if s.isAtFullBandwidth then ProbeBw else Startup)
            && ScheduleStep(p, s, t, now, isRoundStart)
  {
    hide EnterProbeBw;
    EnterProbeBwOnly(s, now, draw);
    var timed := s.(probeRttRoundPassed := s.probeRttRoundPassed || isRoundStart, minRttTimestamp := now);
    EntersProbeBw(timed, now, draw);
  }

  lemma {:induction false} EntersProbeBw(s: Sender, now: nat, draw: nat)
    ensures EnterProbeBw(s, now, draw).mode == ProbeBw
  {
  }

  /** The steps specific to PROBE_RTT. */
  lemma {:induction false} ProbeRttMode(p: Params, s: Sender, now: nat, isRoundStart: bool, minRttExpired: bool,
                                        draw: nat)
    ensures var t := UpdateProbeRtt(p, s, now, isRoundStart, minRttExpired, draw);
            && t.mode == (if s.mode == ProbeRtt then
                            if !LeavesProbeRtt(s, now, isRoundStart) then ProbeRtt
                            else if s.isAtFullBandwidth then ProbeBw else Startup
                          else if minRttExpired && !s.exitingQuiescence then ProbeRtt
                          else s.mode)
            && ScheduleStep(p, s, t, now, isRoundStart) && !t.exitingQuiescence
            && (EnterProbeRtt(s, minRttExpired).mode == ProbeRtt <==> s.mode == ProbeRtt || t.mode == ProbeRtt)
  {
    hide StayInProbeRtt;
    var entered := EnterProbeRtt(s, minRttExpired);
    if entered.mode == ProbeRtt {
      StayInProbeRttMode(p, entered, now, isRoundStart, draw);
      StayInProbeRttOnly(p, entered, now, isRoundStart, draw);
    }
  }

  lemma {:induction false} SameDrained(p: Params, s: Sender, t: Sender, bandwidth: nat, rttMin: nat)
    requires s.minRtt == t.minRtt && s.bytesInFlight == t.bytesInFlight
    ensures Drained(p, s, bandwidth, rttMin) == Drained(p, t, bandwidth, rttMin)
  {
    hide Aim;
    SameAim(p, s, t, bandwidth, rttMin, 1.0);
  }

  lemma {:induction false} ModeComposes(p: Params, s: Sender, m: Sender, t: Sender, sample: EventSample,
                                        bandwidth: nat, e: Event, expired: bool, isRoundStart: bool)
    requires isRoundStart == StartsRound(s, e.acked) && m.exitingQuiescence == s.exitingQuiescence
    requires expired == (sample.sampleRtt.Some? && s.minRtt != 0 && e.eventTime > s.minRttTimestamp + 10_000_000_000)
    requires m.exitProbeRttAt == s.exitProbeRttAt && m.probeRttRoundPassed == s.probeRttRoundPassed
    requires m.mode == (if s.mode == ProbeBw || s.mode == ProbeRtt then s.mode
                        else if !m.isAtFullBandwidth then Startup
                        else if Drained(p, m, bandwidth, e.rttMin) then ProbeBw
                        else Drain)
    requires t.mode == (if m.mode == ProbeRtt then
                          if !LeavesProbeRtt(m, e.eventTime, isRoundStart) then ProbeRtt
                          else if m.isAtFullBandwidth then ProbeBw else Startup
                        else if expired && !m.exitingQuiescence then ProbeRtt
                        else m.mode)
    requires t.isAtFullBandwidth == m.isAtFullBandwidth
    requires Drained(p, t, bandwidth, e.rttMin) == Drained(p, m, bandwidth, e.rttMin)
    ensures ModeStep(p, s, t, sample, bandwidth, e)
  {
    hide Drained, StartsRound;
  }

  lemma {:induction false} SameSchedule(p: Params, s: Sender, s': Sender, t: Sender, t': Sender, now: nat,
                                        isRoundStart: bool)
    requires s.exitProbeRttAt == s'.exitProbeRttAt && s.probeRttRoundPassed == s'.probeRttRoundPassed
    requires s.mode == ProbeRtt <==> s'.mode == ProbeRtt
    requires t.exitProbeRttAt == t'.exitProbeRttAt && t.probeRttRoundPassed == t'.probeRttRoundPassed
    requires t.mode == t'.mode && t.bytesInFlight == t'.bytesInFlight
    ensures ScheduleStep(p, s, t, now, isRoundStart) == ScheduleStep(p, s', t', now, isRoundStart)
  {
  }

  lemma {:induction false} ExpiresIff(s: Sender, t: Sender, now: nat)
    requires t.minRtt == s.minRtt && t.minRttTimestamp == s.minRttTimestamp
    ensures MinRttExpired(t, now) <==> s.minRtt != 0 && now > s.minRttTimestamp + 10_000_000_000
  {
  }

  /** The first two steps leave modes and schedules alone. */
  lemma {:induction false} LearnedMode(p: Params, k: Stack, e: Event, d: Steps)
    requires ParamsOk(p) && Invariant(p, k) && NonEmpty(e) && AreSteps(p, k, e, d)
    ensures var s, t := k.sender, d.learned;
            && ModesAgree(t) && t.mode == s.mode && t.exitingQuiescence == s.exitingQuiescence
            && t.exitProbeRttAt == s.exitProbeRttAt && t.probeRttRoundPassed == s.probeRttRoundPassed
            && d.accounted.minRtt == s.minRtt && d.accounted.minRttTimestamp == s.minRttTimestamp
  {
    hide Account, Learn, ChangeModes, UpdateProbeRtt, Recalculate, Filtered, SampledEvent, MinRttExpired, StartsRound,
         WellFormed, ModesAgree;
    AccountKeeps(p, k.sender, e);
    AccountOnly(k.sender, e);
    LearnKeeps(d.accounted, d.sample, e.eventTime);
    LearnOnly(d.accounted, d.sample, e.eventTime);
  }

  /** And so do the last two. */
  lemma {:induction false} RecalculatedMode(p: Params, k: Stack, e: Event, d: Steps, isRoundStart: bool)
    requires WellFormed(k.sampler) && AreSteps(p, k, e, d)
    ensures var s, t := d.probed, ResetLosses(d.recalculated, isRoundStart);
            && t.mode == s.mode && t.exitProbeRttAt == s.exitProbeRttAt
            && t.probeRttRoundPassed == s.probeRttRoundPassed && t.exitingQuiescence == s.exitingQuiescence
            && t.isAtFullBandwidth == s.isAtFullBandwidth && t.bytesInFlight == s.bytesInFlight && t.minRtt == s.minRtt
  {
    hide Account, Learn, ChangeModes, UpdateProbeRtt, Recalculate, Filtered, SampledEvent, MinRttExpired, StartsRound,
         WellFormed, ResetLosses;
    LimitsOnly(p, d.probed, e, d.bandwidth, d.bytesAcked, d.totalBytesAcked, d.bytesLost);
    ResetOnly(d.recalculated, isRoundStart);
  }

  /** The mode after an event, and the schedule of PROBE_RTT, from the states before and after it and its sample. */
  lemma {:induction false} EventTakesModeStep(p: Params, k: Stack, e: Event)
    requires ParamsOk(p) && Invariant(p, k) && NonEmpty(e)
    ensures var k' := OnCongestionEvent(p, k, e);
            && ModeStep(p, k.sender, k'.sender, SampleAt(p, k, e), k'.filter[0].sample, e)
            && ScheduleStep(p, k.sender, k'.sender, e.eventTime, StartsRound(k.sender, e.acked))
            && !k'.sender.exitingQuiescence
  {
    hide Account, Learn, ChangeModes, UpdateProbeRtt, Recalculate, Filtered, SampledEvent, MinRttExpired, ResetLosses,
         StartsRound, WellFormed, OnCongestionEvent, ModeStep, Drained, LeavesProbeRtt, ScheduleStep, ModesAgree,
         WindowsOk, MarkersSent, WholeBytes;
    var d := EventIsItsSteps(p, k, e);
    var isRoundStart := StartsRound(k.sender, e.acked);
    LearnedMode(p, k, e, d);
    ChangeModesMode(p, d.learned, e, d.bandwidth, d.sample.lastPacketSendState, isRoundStart, d.bytesLost);
    ChangedSchedule(p, d.learned, e, d.bandwidth, d.sample.lastPacketSendState, isRoundStart, d.bytesLost);
    ProbeRttMode(p, d.changed, e.eventTime, isRoundStart, d.minRttExpired, e.draw);
    ProbeRttKeepsFlow(p, d.changed, e.eventTime, isRoundStart, d.minRttExpired, e.draw);
    RecalculatedMode(p, k, e, d, isRoundStart);
    ExpiresIff(k.sender, d.accounted, e.eventTime);
    var t := OnCongestionEvent(p, k, e).sender;
    SameDrained(p, t, d.changed, d.bandwidth, e.rttMin);
    SameSchedule(p, k.sender, d.changed, t, d.probed, e.eventTime, isRoundStart);
    ModeComposes(p, k.sender, d.changed, t, d.sample, d.bandwidth, e, d.minRttExpired, isRoundStart);
  }

  lemma {:induction false} ChangedSchedule(p: Params, s: Sender, e: Event, bandwidth: nat, last: SendTimeState,
                                           isRoundStart: bool, bytesLost: int)
    ensures var t := ChangeModes(p, s, e, bandwidth, last, isRoundStart, bytesLost);
            t.exitProbeRttAt == s.exitProbeRttAt && t.probeRttRoundPassed == s.probeRttRoundPassed
  {
    hide ChangeModes, CountLosses;
    ChangeModesOnly(p, s, e, bandwidth, last, isRoundStart, bytesLost);
    LossesOnly(s, e.lost != [], bytesLost);
  }

  lemma {:induction false} LossesOnly(s: Sender, hasLosses: bool, bytesLost: int)
    ensures var t := CountLosses(s, hasLosses, bytesLost);
            t.exitProbeRttAt == s.exitProbeRttAt && t.probeRttRoundPassed == s.probeRttRoundPassed
  {
  }

  lemma {:induction false} ProbeRttKeepsFlow(p: Params, s: Sender, now: nat, isRoundStart: bool, minRttExpired: bool,
                                             draw: nat)
    ensures var t := UpdateProbeRtt(p, s, now, isRoundStart, minRttExpired, draw);
            && t.isAtFullBandwidth == s.isAtFullBandwidth && t.bytesInFlight == s.bytesInFlight && t.minRtt == s.minRtt
  {
    hide UpdateProbeRtt;
    ProbeRttOnly(p, s, now, isRoundStart, minRttExpired, draw);
  }

  /**
   So DRAIN ends exactly when the flight is down to one bandwidth-delay product, and PROBE_RTT begins
   exactly when the round-trip estimate has expired.
   */
  lemma {:induction false} DrainEndsIff(p: Params, k: Stack, e: Event)
    requires ParamsOk(p) && Invariant(p, k) && NonEmpty(e) && k.sender.mode == Drain
    ensures var t, bandwidth := OnCongestionEvent(p, k, e).sender, OnCongestionEvent(p, k, e).filter[0].sample;
            && (t.mode == ProbeBw <==>
                 t.bytesInFlight <= Aim(p, t, bandwidth, e.rttMin, 1.0)
                 && !EntersProbeRtt(k.sender, SampleAt(p, k, e), e.eventTime))
            && (t.mode == ProbeRtt <==> EntersProbeRtt(k.sender, SampleAt(p, k, e), e.eventTime))
  {
    hide OnCongestionEvent, Aim, SampledEvent, WellFormed, WindowsOk, WholeBytes;
    EventTakesModeStep(p, k, e);
    EventKeepsInvariant(p, k, e);
  }

  // ---------- The app-limited calls ----------

  /**
   The flight leaves the window unused: outside DRAIN any part of it, and in DRAIN half of it, or
   more than ten datagrams.
   */
  predicate LeavesWindow(p: Params, s: Sender, inFlight: nat) {
    var window := CongestionWindow(p, s);
    && inFlight < window
    && (s.mode == Drain ==> 2 * inFlight <= window || window - inFlight > 10 * s.maxDatagramSize)
  }

  lemma {:induction false} IsAppLimitedIff(p: Params, s: Sender, inFlight: nat)
    ensures IsAppLimited(p, s, inFlight) <==> LeavesWindow(p, s, inFlight)
  {
    hide CongestionWindow;
  }

  lemma {:induction false} AcksKeepLimit(s: State, ackTime: nat, acked: seq<AckedPacket>)
    requires WellFormed(s)
    ensures var t := AckAll(s, ackTime, acked).0;
            && t.endOfAppLimitedPhase == s.endOfAppLimitedPhase && t.lastSentPacket == s.lastSentPacket
            && t.tracked == s.tracked && (t.isAppLimited ==> s.isAppLimited)
            && (s.isAppLimited && s.endOfAppLimitedPhase == s.lastSentPacket != INVALID_PACKET_NUMBER ==>
                  t.isAppLimited)
  {
    hide Acked, WellFormed;
    if acked != [] {
      var n := |acked| - 1;
      AcksKeepLimit(s, ackTime, acked[..n]);
      AckKeepsLimit(AckAll(s, ackTime, acked[..n]).0, ackTime, acked[n].packetNumber);
    }
  }

  lemma {:induction false} AckKeepsLimit(s: State, ackTime: nat, q: nat)
    requires WellFormed(s)
    ensures var t := Acked(s, ackTime, q).0;
            && t.endOfAppLimitedPhase == s.endOfAppLimitedPhase && t.lastSentPacket == s.lastSentPacket
            && t.tracked == s.tracked && (t.isAppLimited ==> s.isAppLimited)
            && (s.isAppLimited && s.endOfAppLimitedPhase == s.lastSentPacket != INVALID_PACKET_NUMBER ==>
                  t.isAppLimited)
  {
    hide SampleOf;
    if q in s.tracked.live {
      assert SnapshotOk(s, s.tracked.live[q]);
    }
  }

  lemma {:induction false} SampledLimit(p: Params, k: Stack, e: Event)
    requires WellFormed(k.sampler)
    ensures var s, t := k.sampler, SampledEvent(p, k, e).0;
            && t.lastSentPacket == s.lastSentPacket
            && if LeavesWindow(p, k.sender, e.priorInFlight)
               then t.endOfAppLimitedPhase == s.lastSentPacket
                    && (s.lastSentPacket != INVALID_PACKET_NUMBER ==> t.isAppLimited)
               else t.endOfAppLimitedPhase == s.endOfAppLimitedPhase && (t.isAppLimited ==> s.isAppLimited)
  {
    hide WellFormed, IsAppLimited, LeavesWindow, AckAll, LoseAll;
    OthersKeepWellFormed(k.sampler, 0, 0, 0);
    IsAppLimitedIff(p, k.sender, e.priorInFlight);
    var s := if IsAppLimited(p, k.sender, e.priorInFlight) then LimitedByApp(k.sampler) else k.sampler;
    LoseAllKeepsWellFormed(s, e.lost);
    AcksKeepLimit(LoseAll(s, e.lost).0, e.eventTime, e.acked);
  }

  /** The event opens an app-limited phase: the flight leaves the window unused, or PROBE_RTT is running. */
  ghost predicate LimitsApp(p: Params, s: Sender, t: Sender, inFlight: nat) {
    LeavesWindow(p, s, inFlight) || s.mode == ProbeRtt || t.mode == ProbeRtt
  }

  /**
   Exactly which events open an app-limited phase, up to the last packet sent; the others leave its
   end alone, and open none.
   */
  lemma {:induction false} EventLimitsApp(p: Params, k: Stack, e: Event)
    requires ParamsOk(p) && Invariant(p, k) && NonEmpty(e) && k.sampler.lastSentPacket != INVALID_PACKET_NUMBER
    ensures var s, k' := k.sampler, OnCongestionEvent(p, k, e);
            var t := k'.sampler;
            if LimitsApp(p, k.sender, k'.sender, e.priorInFlight)
            then t.isAppLimited && t.endOfAppLimitedPhase == s.lastSentPacket
            else t.endOfAppLimitedPhase == s.endOfAppLimitedPhase && (t.isAppLimited ==> s.isAppLimited)
  {
    hide Account, Learn, ChangeModes, UpdateProbeRtt, Recalculate, Filtered, SampledEvent, MinRttExpired, ResetLosses,
         StartsRound, WellFormed, ModesAgreeMidEvent, WindowsOkMidEvent, WholeBytes, OnCongestionEvent, LeavesWindow,
         Drained, LeavesProbeRtt, EnterProbeRtt, ScheduleStep, RemoveUpToView, LeastUnacked;
    var d := EventIsItsSteps(p, k, e);
    var isRoundStart := StartsRound(k.sender, e.acked);
    SampledLimit(p, k, e);
    LearnedMode(p, k, e, d);
    ChangeModesMode(p, d.learned, e, d.bandwidth, d.sample.lastPacketSendState, isRoundStart, d.bytesLost);
    ProbeRttMode(p, d.changed, e.eventTime, isRoundStart, d.minRttExpired, e.draw);
    RecalculatedMode(p, k, e, d, isRoundStart);
  }

  // ---------- Runs ----------

  /** A packet was sent into an empty pipe, and no event has come since. */
  ghost predicate LeavingQuiescence(run: seq<Action>, n: nat, j: nat) {
    && j < n <= |run| && run[j].Send? && run[j].bytesInFlight == 0
    && forall i :: j < i < n ==> !run[i].Congestion?
  }

  /** The sender is leaving quiescence exactly then. */
  lemma {:induction false} QuiescenceIs(p: Params, mds: nat, run: seq<Action>, n: nat)
    requires ParamsOk(p) && ValidRun(run) && n <= |run|
    ensures Before(p, mds, run, n).sender.exitingQuiescence <==> exists j: nat :: LeavingQuiescence(run, n, j)
    decreases n
  {
    hide Before, ValidRun, OnCongestionEvent, WellFormed, Invariant, LastSent;
    if n == 0 {
      StartsAwake(p, mds, run);
    } else {
      QuiescenceIs(p, mds, run, n - 1);
      ActionWakes(p, mds, run, n - 1);
      var a := run[n - 1];
      if a.Send? && a.bytesInFlight == 0 {
        assert LeavingQuiescence(run, n, n - 1);
      } else if !a.Congestion? {
        var m := n - 1;
        if exists j: nat :: LeavingQuiescence(run, m, j) {
          var j: nat :| LeavingQuiescence(run, m, j);
          assert LeavingQuiescence(run, n, j);
        }
        if exists j: nat :: LeavingQuiescence(run, n, j) {
          var j: nat :| LeavingQuiescence(run, n, j);
          assert LeavingQuiescence(run, m, j);
        }
      }
    }
  }

  lemma {:induction false} StartsAwake(p: Params, mds: nat, run: seq<Action>)
    requires ParamsOk(p) && ValidRun(run)
    ensures !Before(p, mds, run, 0).sender.exitingQuiescence
  {
    assert run[..0] == [];
  }

  lemma {:induction false} ActionWakes(p: Params, mds: nat, run: seq<Action>, i: nat)
    requires ParamsOk(p) && ValidRun(run) && i < |run|
    ensures Before(p, mds, run, i + 1).sender.exitingQuiescence
         == if run[i].Congestion? then false
            else Before(p, mds, run, i).sender.exitingQuiescence || (run[i].Send? && run[i].bytesInFlight == 0)
  {
    hide Before, OnCongestionEvent, WellFormed, ModeStep, ScheduleStep;
    BeforeStep(p, mds, run, i);
    if run[i].Congestion? {
      assert NonEmpty(run[i].event);
      EventTakesModeStep(p, Before(p, mds, run, i), run[i].event);
    }
  }

  // ---------- The start of a cycle ----------

  /** Each offset but that of the drain phase is drawn by one of seven remainders. */
  lemma {:induction false} OffsetsAreDrawn(offset: nat, draw: nat)
    requires offset < 8 && offset != 1
    ensures CycleOffset(draw) == offset <==> draw % 7 == if offset == 0 then 0 else offset - 1
  {
  }

  /** The pacing gain of every mode, and of every phase of PROBE_BW. */
  lemma {:induction false} GainsOfModes(s: Sender)
    requires ModesAgree(s)
    ensures s.pacingGain == match s.mode
                            case Startup => 2.885
                            case Drain => 1.0 / 2.885
                            case ProbeRtt => 1.0
                            case ProbeBw =>
                              if s.cycleCurrentOffset == 0 then 1.25
                              else if s.cycleCurrentOffset == 1 then 0.75
                              else 1.0
    ensures s.congestionWindowGain == 2.0
  {
  }
}
