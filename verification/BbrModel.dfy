/**
 The state machine of the BBR sender in congestion_meta2/bbr_sender.go: one function for
 each step of the event handler, over the sender's own fields, and their composition over
 the whole stack of sender, bandwidth filter and bandwidth sampler.

 Gains are exact reals. The round-trip time that the connection's statistics report, the
 tracked maximum ack height and the random draw of a cycle offset are inputs of each event.
 */
module BbrModel {
  import opened PacketQueues
  import opened BandwidthSamplers
  import opened WindowedFilters
  import opened Arithmetic

  const MILLISECOND := 1_000_000
  const HIGH_GAIN := 2.885
  const DRAIN_GAIN := 1.0 / 2.885
  const HIGH_CWND_GAIN := 2.0
  const CWND_GAIN := 2.0
  const PACING_GAIN: seq<real> := [1.25, 0.75, 1.0, 1.0, 1.0, 1.0, 1.0, 1.0]
  const GAIN_CYCLE_LENGTH := 8
  const BANDWIDTH_WINDOW_SIZE := GAIN_CYCLE_LENGTH + 2
  const MIN_RTT_EXPIRY := 10 * SECOND
  const PROBE_RTT_TIME := 200 * MILLISECOND
  const STARTUP_GROWTH_TARGET := 1.25
  const NUM_STARTUP_RTTS := 3
  const STARTUP_FULL_LOSS_COUNT := 8
  const LOSS_THRESHOLD := 0.02
  const MAX_BURST_PACKETS := 10

  datatype Mode = Startup | Drain | ProbeBw | ProbeRtt
  datatype Recovery = NotInRecovery | Conservation | Growth

  /** What the constructor fixes; the last one is the transport library's packet buffer size. */
  datatype Params = Params(initialWindow: nat, minWindow: nat, maxWindow: nat, maxPacketBufferSize: nat)

  predicate ParamsOk(p: Params) {
    0 < p.minWindow <= p.initialWindow <= p.maxWindow
  }

  datatype Sender = Sender(
    mode: Mode,
    roundTripCount: nat, lastSentPacket: int, currentRoundTripEnd: int,
    numLossEventsInRound: nat, bytesLostInRound: int,
    minRtt: int, minRttTimestamp: nat,
    congestionWindow: int, pacingRate: int, pacingGain: real, congestionWindowGain: real,
    cycleCurrentOffset: nat, lastCycleStart: nat,
    isAtFullBandwidth: bool, roundsWithoutBandwidthGain: nat, bandwidthAtLastRound: nat,
    exitingQuiescence: bool, exitProbeRttAt: nat, probeRttRoundPassed: bool,
    lastSampleIsAppLimited: bool, hasNoAppLimitedSample: bool,
    recoveryState: Recovery, endRecoveryAt: int, recoveryWindow: int,
    maxDatagramSize: nat, bytesInFlight: int)

  /** One congestion event, with what the environment contributes to its handling. */
  datatype Event = Event(
    priorInFlight: nat, eventTime: nat, acked: seq<AckedPacket>, lost: seq<LostPacket>,
    rttMin: nat, maxAckHeight: nat, draw: nat)

  /** The sender together with its filter and its sampler. */
  datatype Stack = Stack(sender: Sender, filter: Estimates, sampler: State)

  // ---------- Arithmetic ----------

  /** A gain applied to an integer quantity. */
  function Scale(gain: real, x: int): int {
    Trunc(gain * x as real)
  }

  function Bdp(rtt: int, bandwidth: nat): int {
    Quo(Quo(rtt * bandwidth, BYTES_PER_SECOND), SECOND)
  }

  /** The pacing gain of a position in the PROBE_BW cycle. */
  function GainAt(offset: nat): real
    requires offset < GAIN_CYCLE_LENGTH
  {
    PACING_GAIN[offset]
  }

  // ---------- Reading the state ----------

  function Initial(p: Params, maxDatagramSize: nat): Sender {
    Sender(Startup, 0, INVALID_PACKET_NUMBER, INVALID_PACKET_NUMBER, 0, 0, 0, UNSET_TIME,
           p.initialWindow, 0, HIGH_GAIN, HIGH_CWND_GAIN, 0, UNSET_TIME, false, 0, 0,
           false, UNSET_TIME, false, false, false,
           NotInRecovery, INVALID_PACKET_NUMBER, p.maxWindow, maxDatagramSize, 0)
  }

  /** The window the send check uses. */
  function CongestionWindow(p: Params, s: Sender): int {
    if s.mode == ProbeRtt then p.minWindow
    else if s.recoveryState != NotInRecovery then Min(s.congestionWindow, s.recoveryWindow)
    else s.congestionWindow
  }

  function MinRttOf(s: Sender, rttMin: nat): int {
    if s.minRtt != 0 then s.minRtt else if rttMin == 0 then 100 * MILLISECOND else rttMin
  }

  function TargetWindow(p: Params, s: Sender, bandwidth: nat, rttMin: nat, gain: real): int {
    var window := Scale(gain, Bdp(MinRttOf(s, rttMin), bandwidth));
    Max(if window == 0 then Scale(gain, p.initialWindow) else window, p.minWindow)
  }

  /** Whether the flight leaves so much of the window unused that the phase is app-limited. */
  function IsAppLimited(p: Params, s: Sender, bytesInFlight: int): bool {
    var window := CongestionWindow(p, s);
    bytesInFlight < window
    && (!(s.mode == Drain && bytesInFlight > window / 2)
        || window - bytesInFlight > MAX_BURST_PACKETS * s.maxDatagramSize)
  }

  function SumAcked(acked: seq<AckedPacket>): nat {
    if acked == [] then 0 else SumAcked(acked[..|acked| - 1]) + acked[|acked| - 1].bytesAcked
  }

  function SumLost(lost: seq<LostPacket>): nat {
    if lost == [] then 0 else SumLost(lost[..|lost| - 1]) + lost[|lost| - 1].bytesLost
  }

  // ---------- The steps of the event handler ----------

  function PacketSent(s: Sender, packetNumber: nat, bytesInFlight: nat): Sender {
    s.(lastSentPacket := packetNumber, bytesInFlight := bytesInFlight,
       exitingQuiescence := s.exitingQuiescence || bytesInFlight == 0)
  }

  predicate IsRoundStart(s: Sender, lastAcked: int) {
    s.currentRoundTripEnd == INVALID_PACKET_NUMBER || lastAcked > s.currentRoundTripEnd
  }

  /** Only the marker of the round decides. */
  lemma {:induction false} SameRoundStart(s: Sender, t: Sender, lastAcked: int)
    requires s.currentRoundTripEnd == t.currentRoundTripEnd
    ensures IsRoundStart(s, lastAcked) == IsRoundStart(t, lastAcked)
  {
  }

  function CountRound(s: Sender, lastAcked: int): Sender {
    if IsRoundStart(s, lastAcked)
    then s.(roundTripCount := s.roundTripCount + 1, currentRoundTripEnd := s.lastSentPacket)
    else s
  }

  /** Losses, seen in an event with acks, push the end of recovery to the last packet sent. */
  function MarkLosses(s: Sender, hasLosses: bool): Sender {
    if hasLosses then s.(endRecoveryAt := s.lastSentPacket) else s
  }

  /** The state switch: start, advance or end the recovery. */
  function AdvanceRecovery(s: Sender, lastAcked: int, hasLosses: bool, isRoundStart: bool): Sender {
    if s.recoveryState == NotInRecovery then
      if hasLosses then s.(recoveryState := Conservation, recoveryWindow := 0, currentRoundTripEnd := s.lastSentPacket)
      else s
    else if !hasLosses && lastAcked > s.endRecoveryAt then s.(recoveryState := NotInRecovery)
    else if s.recoveryState == Conservation && isRoundStart then s.(recoveryState := Growth)
    else s
  }

  function UpdateRecovery(s: Sender, lastAcked: int, hasLosses: bool, isRoundStart: bool): Sender {
    if s.isAtFullBandwidth then AdvanceRecovery(MarkLosses(s, hasLosses), lastAcked, hasLosses, isRoundStart) else s
  }

  function NoteSample(s: Sender, sample: EventSample): Sender {
    if !sample.lastPacketSendState.isValid then s
    else
      var limited := sample.lastPacketSendState.isAppLimited;
      s.(lastSampleIsAppLimited := limited, hasNoAppLimitedSample := s.hasNoAppLimitedSample || !limited)
  }

  predicate MinRttExpired(s: Sender, now: nat) {
    s.minRtt != 0 && now > s.minRttTimestamp + MIN_RTT_EXPIRY
  }

  function UpdateMinRtt(s: Sender, now: nat, sampleRtt: int): Sender {
    if MinRttExpired(s, now) || sampleRtt < s.minRtt || s.minRtt == 0
    then s.(minRtt := sampleRtt, minRttTimestamp := now)
    else s
  }

  function CountLosses(s: Sender, hasLosses: bool, bytesLost: int): Sender {
    if hasLosses
    then s.(numLossEventsInRound := s.numLossEventsInRound + 1, bytesLostInRound := s.bytesLostInRound + bytesLost)
    else s
  }

  predicate AdvancesCycle(p: Params, s: Sender, bandwidth: nat, rttMin: nat, now: nat, priorInFlight: nat,
                          hasLosses: bool) {
    || (s.pacingGain < 1.0 && s.bytesInFlight <= TargetWindow(p, s, bandwidth, rttMin, 1.0))
    || (now > s.lastCycleStart + MinRttOf(s, rttMin)
        && !(s.pacingGain > 1.0 && !hasLosses && priorInFlight < TargetWindow(p, s, bandwidth, rttMin, s.pacingGain)))
  }

  function UpdateGainCycle(p: Params, s: Sender, bandwidth: nat, rttMin: nat, now: nat, priorInFlight: nat,
                           hasLosses: bool): Sender {
    if AdvancesCycle(p, s, bandwidth, rttMin, now, priorInFlight, hasLosses) then
      var offset := (s.cycleCurrentOffset + 1) % GAIN_CYCLE_LENGTH;
      s.(cycleCurrentOffset := offset, lastCycleStart := now, pacingGain := GainAt(offset))
    else s
  }

  predicate ExitsStartupByLoss(s: Sender, last: SendTimeState) {
    && s.numLossEventsInRound >= STARTUP_FULL_LOSS_COUNT && last.isValid
    && last.bytesInFlight > 0 && s.bytesLostInRound > 0
    && s.bytesLostInRound > Scale(LOSS_THRESHOLD, last.bytesInFlight)
  }

  function GrowthTarget(bandwidthAtLastRound: nat): int {
    Scale(STARTUP_GROWTH_TARGET, bandwidthAtLastRound)
  }

  function CheckFullBandwidth(s: Sender, bandwidth: nat, last: SendTimeState): Sender {
    if s.lastSampleIsAppLimited then s
    else if bandwidth >= GrowthTarget(s.bandwidthAtLastRound)
    then s.(bandwidthAtLastRound := bandwidth, roundsWithoutBandwidthGain := 0)
    else
      var stalled := s.(roundsWithoutBandwidthGain := s.roundsWithoutBandwidthGain + 1);
      stalled.(isAtFullBandwidth := s.isAtFullBandwidth
                                    || stalled.roundsWithoutBandwidthGain >= NUM_STARTUP_RTTS
                                    || ExitsStartupByLoss(stalled, last))
  }

  function EnterStartup(s: Sender): Sender {
    s.(mode := Startup, pacingGain := HIGH_GAIN, congestionWindowGain := HIGH_CWND_GAIN)
  }

  /** The random cycle offset: 0 or 2 to 7, so that a drain phase never comes first. */
  function CycleOffset(draw: nat): (offset: nat)
    ensures offset < GAIN_CYCLE_LENGTH && offset != 1
  {
    var r := draw % (GAIN_CYCLE_LENGTH - 1);
    if r >= 1 then r + 1 else r
  }

  function EnterProbeBw(s: Sender, now: nat, draw: nat): Sender {
    s.(mode := ProbeBw, congestionWindowGain := CWND_GAIN, cycleCurrentOffset := CycleOffset(draw),
       lastCycleStart := now, pacingGain := GainAt(CycleOffset(draw)))
  }

  function ExitStartup(s: Sender): Sender {
    if s.mode == Startup && s.isAtFullBandwidth
    then s.(mode := Drain, pacingGain := DRAIN_GAIN, congestionWindowGain := HIGH_CWND_GAIN)
    else s
  }

  function ExitStartupOrDrain(p: Params, s: Sender, bandwidth: nat, rttMin: nat, now: nat, draw: nat): Sender {
    var d := ExitStartup(s);
    if d.mode == Drain && d.bytesInFlight <= TargetWindow(p, d, bandwidth, rttMin, 1.0)
    then EnterProbeBw(d, now, draw)
    else d
  }

  function EnterProbeRtt(s: Sender, minRttExpired: bool): Sender {
    if minRttExpired && !s.exitingQuiescence && s.mode != ProbeRtt
    then s.(mode := ProbeRtt, pacingGain := 1.0, exitProbeRttAt := UNSET_TIME)
    else s
  }

  /** What an event does to a sender that is in PROBE_RTT. */
  function StayInProbeRtt(p: Params, s: Sender, now: nat, isRoundStart: bool, draw: nat): Sender {
    if s.exitProbeRttAt == UNSET_TIME then
      if s.bytesInFlight < p.minWindow + p.maxPacketBufferSize
      then s.(exitProbeRttAt := now + PROBE_RTT_TIME, probeRttRoundPassed := false)
      else s
    else
      var passed := s.(probeRttRoundPassed := s.probeRttRoundPassed || isRoundStart);
      if now >= passed.exitProbeRttAt && passed.probeRttRoundPassed then
        var timed := passed.(minRttTimestamp := now);
        if timed.isAtFullBandwidth then EnterProbeBw(timed, now, draw) else EnterStartup(timed)
      else passed
  }

  function UpdateProbeRtt(p: Params, s: Sender, now: nat, isRoundStart: bool, minRttExpired: bool, draw: nat): Sender {
    var entered := EnterProbeRtt(s, minRttExpired);
    var stayed := if entered.mode == ProbeRtt then StayInProbeRtt(p, entered, now, isRoundStart, draw) else entered;
    stayed.(exitingQuiescence := false)
  }

  function UpdatePacingRate(p: Params, s: Sender, bandwidth: nat, rttMin: nat): Sender {
    if bandwidth == 0 then s
    else
      var target := Scale(s.pacingGain, bandwidth);
      if s.isAtFullBandwidth then s.(pacingRate := target)
      else if s.pacingRate == 0 && rttMin != 0 then s.(pacingRate := BandwidthFromDelta(p.initialWindow, rttMin))
      else s.(pacingRate := Max(s.pacingRate, target))
  }

  function UpdateCongestionWindow(p: Params, s: Sender, bandwidth: nat, rttMin: nat,
                                  bytesAcked: int, totalBytesAcked: nat, maxAckHeight: nat): Sender {
    if s.mode == ProbeRtt then s
    else
      var target := TargetWindow(p, s, bandwidth, rttMin, s.congestionWindowGain);
      var window :=
        if s.isAtFullBandwidth then Min(target + maxAckHeight, s.congestionWindow + bytesAcked)
        else if s.congestionWindow < target || totalBytesAcked < p.initialWindow then s.congestionWindow + bytesAcked
        else s.congestionWindow;
      s.(congestionWindow := Min(Max(window, p.minWindow), p.maxWindow))
  }

  function UpdateRecoveryWindow(p: Params, s: Sender, bytesAcked: int, bytesLost: int): Sender {
    if s.recoveryState == NotInRecovery then s
    else if s.recoveryWindow == 0 then s.(recoveryWindow := Max(p.minWindow, s.bytesInFlight + bytesAcked))
    else
      var reduced := if s.recoveryWindow >= bytesLost then s.recoveryWindow - bytesLost else s.maxDatagramSize;
      var grown := if s.recoveryState == Growth then reduced + bytesAcked else reduced;
      s.(recoveryWindow := Max(p.minWindow, Max(grown, s.bytesInFlight + bytesAcked)))
  }

  function ResetLosses(s: Sender, isRoundStart: bool): Sender {
    if isRoundStart then s.(numLossEventsInRound := 0, bytesLostInRound := 0) else s
  }

  // ---------- The event handler ----------

  /** Whether this event starts a round: only acknowledgements can. */
  predicate StartsRound(s: Sender, acked: seq<AckedPacket>) {
    acked != [] && IsRoundStart(s, acked[|acked| - 1].packetNumber)
  }

  /** The flight is recounted, then the acks may advance the round and the recovery. */
  function Account(s: Sender, e: Event): Sender {
    var counted := s.(bytesInFlight := e.priorInFlight - SumAcked(e.acked) - SumLost(e.lost));
    if e.acked == [] then counted
    else
      var last := e.acked[|e.acked| - 1].packetNumber;
      UpdateRecovery(CountRound(counted, last), last, e.lost != [], StartsRound(counted, e.acked))
  }

  /** The filter takes a new sample unless it is app-limited and no improvement. */
  function Filtered(filter: Estimates, sample: EventSample, round: nat, anyAcked: bool): Estimates {
    if anyAcked && (!sample.sampleIsAppLimited || sample.sampleMaxBandwidth > filter[0].sample)
    then Updated(BANDWIDTH_WINDOW_SIZE, filter, Entry(sample.sampleMaxBandwidth, round))
    else filter
  }

  /** The sample's news for the sender: its app-limited flag and its round-trip time. */
  function Learn(s: Sender, sample: EventSample, now: nat): Sender {
    var noted := NoteSample(s, sample);
    if sample.sampleRtt.Some? then UpdateMinRtt(noted, now, sample.sampleRtt.value) else noted
  }

  /** Loss counters, gain cycle and full-bandwidth check: what precedes the exits from STARTUP and DRAIN. */
  function Checked(p: Params, s: Sender, e: Event, bandwidth: nat, last: SendTimeState,
                   isRoundStart: bool, bytesLost: int): Sender {
    var lossy := CountLosses(s, e.lost != [], bytesLost);
    var cycled := if lossy.mode == ProbeBw
                  then UpdateGainCycle(p, lossy, bandwidth, e.rttMin, e.eventTime, e.priorInFlight, e.lost != [])
                  else lossy;
    if isRoundStart && !cycled.isAtFullBandwidth then CheckFullBandwidth(cycled, bandwidth, last) else cycled
  }

  /** The steps specific to PROBE_BW, STARTUP and DRAIN, in order. */
  function ChangeModes(p: Params, s: Sender, e: Event, bandwidth: nat, last: SendTimeState,
                       isRoundStart: bool, bytesLost: int): Sender {
    ExitStartupOrDrain(p, Checked(p, s, e, bandwidth, last, isRoundStart, bytesLost),
                       bandwidth, e.rttMin, e.eventTime, e.draw)
  }

  /** Pacing rate, congestion window and recovery window, recomputed. */
  function Recalculate(p: Params, s: Sender, e: Event, bandwidth: nat,
                       bytesAcked: int, totalBytesAcked: nat, bytesLost: int): Sender {
    var paced := UpdatePacingRate(p, s, bandwidth, e.rttMin);
    var sized := UpdateCongestionWindow(p, paced, bandwidth, e.rttMin, bytesAcked, totalBytesAcked, e.maxAckHeight);
    UpdateRecoveryWindow(p, sized, bytesAcked, bytesLost)
  }

  /** The first packet the sampler has to keep. */
  function LeastUnacked(e: Event): int
    requires e.acked != [] || e.lost != []
  {
    if e.acked != [] then e.acked[|e.acked| - 1].packetNumber - 2 else e.lost[|e.lost| - 1].packetNumber + 1
  }

  predicate NonEmpty(e: Event) { e.acked != [] || e.lost != [] }

  /** The sampler's part of an event: perhaps an app-limited call, then the acks and losses. */
  function SampledEvent(p: Params, k: Stack, e: Event): (r: (State, EventSample))
    requires WellFormed(k.sampler)
    ensures WellFormed(r.0)
  {
    OthersKeepWellFormed(k.sampler, 0, 0, 0);
    CongestionEvent(if IsAppLimited(p, k.sender, e.priorInFlight) then LimitedByApp(k.sampler) else k.sampler,
                    e.eventTime, e.acked, e.lost)
  }

  function OnPacketSent(k: Stack, sentTime: nat, bytesInFlight: nat, packetNumber: nat, bytes: nat,
                        isRetransmittable: bool): Stack {
    k.(sender := PacketSent(k.sender, packetNumber, bytesInFlight),
       sampler := Sent(k.sampler, sentTime, packetNumber, bytes, bytesInFlight, isRetransmittable))
  }

  /** What an event taught, for the steps that adapt to it. */
  datatype Lesson = Lesson(
    last: SendTimeState, isRoundStart: bool, minRttExpired: bool, bytesAcked: int, bytesLost: int)

  /** The first half of the handler: accounts for the event and learns from its sample. */
  function Observe(p: Params, k: Stack, e: Event): (r: (Stack, Lesson))
    requires WellFormed(k.sampler)
    ensures WellFormed(r.0.sampler)
  {
    var (sampled, sample) := SampledEvent(p, k, e);
    var bytesAcked := sampled.totalBytesAcked - k.sampler.totalBytesAcked;
    var accounted := Account(k.sender, e);
    (Stack(Learn(accounted, sample, e.eventTime),
           Filtered(k.filter, sample, accounted.roundTripCount, bytesAcked != 0),
           sampled),
     Lesson(sample.lastPacketSendState, StartsRound(k.sender, e.acked),
            sample.sampleRtt.Some? && MinRttExpired(accounted, e.eventTime),
            bytesAcked, sampled.totalBytesLost - k.sampler.totalBytesLost))
  }

  /** The second half: changes modes, recomputes the limits and drops obsolete packets. */
  function Adapt(p: Params, k: Stack, e: Event, l: Lesson): Stack
    requires NonEmpty(e)
  {
    var bandwidth := k.filter[0].sample;
    var changed := ChangeModes(p, k.sender, e, bandwidth, l.last, l.isRoundStart, l.bytesLost);
    var probed := UpdateProbeRtt(p, changed, e.eventTime, l.isRoundStart, l.minRttExpired, e.draw);
    var sampler := if EnterProbeRtt(changed, l.minRttExpired).mode == ProbeRtt
                   then LimitedByApp(k.sampler) else k.sampler;
    var recalculated := Recalculate(p, probed, e, bandwidth, l.bytesAcked, k.sampler.totalBytesAcked, l.bytesLost);
    Stack(ResetLosses(recalculated, l.isRoundStart), k.filter, Obsoleted(sampler, LeastUnacked(e)))
  }

  function OnCongestionEvent(p: Params, k: Stack, e: Event): Stack
    requires WellFormed(k.sampler) && NonEmpty(e)
  {
    var (observed, lesson) := Observe(p, k, e);
    Adapt(p, observed, e, lesson)
  }

  function InitialStack(p: Params, maxDatagramSize: nat): Stack {
    Stack(Initial(p, maxDatagramSize), CLEARED, INITIAL)
  }
}
