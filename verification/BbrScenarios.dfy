/**
 Concrete runs of the BBR sender: one that stays in STARTUP for want of an estimate, one that
 reaches full bandwidth, and one whose recovery ends before its losses are behind it
 (congestion_meta2/bbr_sender.go:678-699, 771-804).
 */
module BbrScenarios {
  import opened Wrappers
  import opened BandwidthSamplers
  import opened BbrModel
  import opened BbrFrames
  import opened BbrInvariants
  import opened BbrTraces
  import opened BbrPhases
  import opened BbrEstimates
  import opened BbrStartup
  import WindowedFilters

  const PACKET := 1000

  function SendTime(i: nat): nat { (2 * i + 1) * SECOND }

  /** Packet i goes out alone; an ack-only packet is not tracked. */
  function SendOf(i: nat, tracked: bool): Action { Send(SendTime(i), 0, i, PACKET, tracked) }

  /** Its acknowledgement, one second later; an ack-only packet is not in flight. */
  function AckOf(i: nat, tracked: bool): Event {
    Event(if tracked then PACKET else 0, SendTime(i) + SECOND,
          [AckedPacket(i, if tracked then PACKET else 0)], [], 0, 0, 0)
  }

  /** Packet after packet, each acknowledged before the next is sent. */
  function Rounds(n: nat, tracked: bool): (run: seq<Action>)
    ensures |run| == 2 * n
  {
    seq(2 * n, a requires 0 <= a < 2 * n =>
          if a % 2 == 0 then SendOf(a / 2, tracked) else Congestion(AckOf(a / 2, tracked)))
  }

  lemma {:induction false} RoundAt(n: nat, tracked: bool, i: nat)
    requires i < n
    ensures Rounds(n, tracked)[2 * i] == SendOf(i, tracked)
    ensures Rounds(n, tracked)[2 * i + 1] == Congestion(AckOf(i, tracked))
  {
  }

  lemma {:induction false} RoundsAreValid(n: nat, tracked: bool)
    ensures ValidRun(Rounds(n, tracked))
  {
    hide SendTime;
    var run := Rounds(n, tracked);
    forall a | 0 <= a < |run| && run[a].Congestion? && run[a].event.acked != []
      ensures exists j :: SentAt(run, j, LastAcked(run[a].event)) && j < a
    {
      assert SentAt(run, a - 1, LastAcked(run[a].event));
    }
  }

  // ---------- STARTUP without an estimate ----------

  /** Nothing is tracked or estimated, and the last packet sent ended the round. */
  ghost predicate Idle(k: Stack, i: nat) {
    && k.sampler.tracked.live == map[] && k.filter == WindowedFilters.CLEARED
    && WatchOf(k.sender) == Watch(false, 0, 0) && !k.sender.lastSampleIsAppLimited
    && k.sender.currentRoundTripEnd < i && k.sender.mode == Startup && k.sender.minRtt == 0
  }

  /** An event that acknowledges one packet takes its sample. */
  lemma {:induction false} OneAck(s: State, ackTime: nat, acked: seq<AckedPacket>)
    requires WellFormed(s) && |acked| == 1
    ensures var (after, sample) := Acked(s, ackTime, acked[0].packetNumber);
            CongestionEvent(s, ackTime, acked, []) == (after, Merged(NO_EVENT_SAMPLE, sample))
  {
    hide Acked, WellFormed;
    assert acked[..0] == [];
    assert AckAll(s, ackTime, acked[..0]) == (s, NO_EVENT_SAMPLE);
  }

  lemma {:induction false} UntrackedTeachesNothing(p: Params, k: Stack, e: Event)
    requires WellFormed(k.sampler) && k.sampler.tracked.live == map[] && |e.acked| == 1 && e.lost == []
    ensures var (sampled, sample) := SampledEvent(p, k, e);
            && !sample.lastPacketSendState.isValid && sample.sampleRtt == None
            && sampled.totalBytesAcked == k.sampler.totalBytesAcked && sampled.tracked.live == map[]
  {
    OthersKeepWellFormed(k.sampler, 0, 0, 0);
    OneAck(if IsAppLimited(p, k.sender, e.priorInFlight) then LimitedByApp(k.sampler) else k.sampler,
           e.eventTime, e.acked);
  }

  lemma {:induction false} IdleEvent(p: Params, k: Stack, i: nat)
    requires ParamsOk(p) && Invariant(p, k) && Idle(k, i) && k.sender.lastSentPacket == i
    ensures var k' := OnCongestionEvent(p, k, AckOf(i, false));
            && Idle(k', i + 1) && k'.sender.lastSentPacket == i
            && Judges(k.sender, AckOf(i, false).acked, k'.sender) && k'.filter[0].sample == 0
  {
    hide OnCongestionEvent, SampledEvent, GrowthTarget, WindowsOk, WellFormed, WholeBytes;
    var e := AckOf(i, false);
    UntrackedTeachesNothing(p, k, e);
    var d := EventIsItsSteps(p, k, e);
    EventReads(p, k, e);
    EventJudges(p, k, e);
    EventKeepsInvariant(p, k, e);
    AccountMarkers(k.sender, e);
    GrowthTargetIs(0);
  }

  lemma {:induction false} IdleRound(p: Params, mds: nat, n: nat, i: nat)
    requires ParamsOk(p) && i < n && ValidRun(Rounds(n, false)) && Idle(Before(p, mds, Rounds(n, false), 2 * i), i)
    ensures Idle(Before(p, mds, Rounds(n, false), 2 * i + 2), i + 1)
    ensures !JudgesAt(p, mds, Rounds(n, false), 2 * i) && JudgesAt(p, mds, Rounds(n, false), 2 * i + 1)
  {
    hide OnCongestionEvent, Before, WellFormed, ValidRun, Rounds, Judges;
    var run := Rounds(n, false);
    RoundAt(n, false, i);
    BeforeStep(p, mds, run, 2 * i);
    BeforeStep(p, mds, run, 2 * i + 1);
    IdleEvent(p, Before(p, mds, run, 2 * i + 1), i);
  }

  lemma {:induction false} IdleRounds(p: Params, mds: nat, n: nat, i: nat)
    requires ParamsOk(p) && i <= n && ValidRun(Rounds(n, false))
    ensures Idle(Before(p, mds, Rounds(n, false), 2 * i), i) && JudgementCount(p, mds, Rounds(n, false), 2 * i) == i
    decreases i
  {
    hide JudgesAt, Idle, Before, ValidRun, Rounds;
    if i == 0 {
      StartsIdle(p, mds, Rounds(n, false));
    } else {
      IdleRounds(p, mds, n, i - 1);
      IdleRound(p, mds, n, i - 1);
    }
  }

  lemma {:induction false} StartsIdle(p: Params, mds: nat, run: seq<Action>)
    requires ParamsOk(p) && ValidRun(run)
    ensures Idle(Before(p, mds, run, 0), 0)
  {
    assert run[..0] == [];
  }

  /**
   An estimate is needed: for every number of rounds there is a run, of ack-only packets each
   acknowledged in turn, that judges the bandwidth in each of them and is still in STARTUP.
   */
  lemma {:induction false} UnknownBandwidthStallsStartup(p: Params, mds: nat, n: nat) returns (run: seq<Action>)
    requires ParamsOk(p)
    ensures ValidRun(run) && JudgementCount(p, mds, run, |run|) == n
    ensures Run(p, mds, run).sender.mode == Startup && !Run(p, mds, run).sender.isAtFullBandwidth
  {
    hide JudgesAt, Invariant;
    run := Rounds(n, false);
    RoundsAreValid(n, false);
    IdleRounds(p, mds, n, n);
    assert run[..2 * n] == run;
  }

  // ---------- Full bandwidth ----------

  /** A window of one packet: a lone packet in flight is not limited by the application. */
  const TIGHT := Params(PACKET, PACKET, PACKET, 0)
  const RATE := 8 * PACKET

  /** The estimate is the steady rate, and has stalled in every round but the first. */
  ghost predicate Steady(k: Stack, i: nat) {
    && !k.sampler.isAppLimited && k.filter[0].sample in {0, RATE}
    && WatchOf(k.sender) == (if i == 0 then Watch(false, 0, 0) else Watch(i == 4, i - 1, RATE))
    && k.sender.currentRoundTripEnd < i && k.sender.numLossEventsInRound == 0
    && (i < 4 ==> k.sender.mode == Startup)
  }

  /** One packet, sent and acknowledged a second later, samples the steady rate. */
  lemma {:induction false} SteadySample(s: State, i: nat)
    requires WellFormed(s) && !s.isAppLimited && s.lastSentPacket < i
    ensures var sent := Sent(s, SendTime(i), i, PACKET, 0, true);
            WellFormed(sent) &&
            var (after, sample) := Acked(sent, SendTime(i) + SECOND, i);
            && !sent.isAppLimited && !after.isAppLimited && after.totalBytesAcked == sent.totalBytesAcked + PACKET
            && sample.bandwidth == RATE && sample.rtt == SECOND
            && sample.stateAtSend.isValid && !sample.stateAtSend.isAppLimited
  {
    SentKeepsWellFormed(s, SendTime(i), i, PACKET, 0, true);
    var snapshot := Sent(s, SendTime(i), i, PACKET, 0, true).tracked.live[i];
    assert SendRate(snapshot) == None;
    assert BandwidthFromDelta(PACKET, SECOND) == RATE;
  }

  lemma {:induction false} SteadyFilter(filter: WindowedFilters.Estimates, sample: EventSample, round: nat)
    requires filter[0].sample in {0, RATE} && sample.sampleMaxBandwidth == RATE && !sample.sampleIsAppLimited
    ensures Filtered(filter, sample, round, true)[0].sample == RATE
  {
  }

  /** The send of packet i makes the next event report the steady rate. */
  lemma {:induction false} SteadyReport(k: Stack, i: nat)
    requires Invariant(TIGHT, k) && Steady(k, i) && k.sender.lastSentPacket < i
    ensures var k1 := OnPacketSent(k, SendTime(i), 0, i, PACKET, true);
            WellFormed(k1.sampler) &&
            var (sampled, sample) := SampledEvent(TIGHT, k1, AckOf(i, true));
            && !sampled.isAppLimited && sampled.totalBytesAcked == k1.sampler.totalBytesAcked + PACKET
            && sample.sampleMaxBandwidth == RATE && !sample.sampleIsAppLimited
            && sample.lastPacketSendState.isValid && !sample.lastPacketSendState.isAppLimited
  {
    hide Sent, Acked, CongestionEvent, WellFormed, AckAll;
    SteadySample(k.sampler, i);
    SendKeepsInvariant(TIGHT, k, SendTime(i), 0, i, PACKET, true);
    var k1 := OnPacketSent(k, SendTime(i), 0, i, PACKET, true);
    SendWindowInBounds(TIGHT, k1);
    OneAck(k1.sampler, SendTime(i) + SECOND, AckOf(i, true).acked);
  }

  lemma {:induction false} SteadyEvent(k1: Stack, i: nat)
    requires Invariant(TIGHT, k1) && Steady(k1, i) && i < 4 && k1.sender.lastSentPacket == i
    requires var (sampled, sample) := SampledEvent(TIGHT, k1, AckOf(i, true));
             && !sampled.isAppLimited && sampled.totalBytesAcked == k1.sampler.totalBytesAcked + PACKET
             && sample.sampleMaxBandwidth == RATE && !sample.sampleIsAppLimited
             && sample.lastPacketSendState.isValid && !sample.lastPacketSendState.isAppLimited
    ensures Steady(OnCongestionEvent(TIGHT, k1, AckOf(i, true)), i + 1)
  {
    hide OnCongestionEvent, SampledEvent, GrowthTarget, WindowsOk, WellFormed, WholeBytes, Filtered, EnterProbeRtt;
    var e := AckOf(i, true);
    var d := EventIsItsSteps(TIGHT, k1, e);
    EventReads(TIGHT, k1, e);
    EventJudges(TIGHT, k1, e);
    EventKeepsInvariant(TIGHT, k1, e);
    AccountMarkers(k1.sender, e);
    SteadyFilter(k1.filter, d.sample, d.accounted.roundTripCount);
    GrowthTargetIs(k1.sender.bandwidthAtLastRound);
    StaysOutOfProbeRtt(TIGHT, k1, e, d);
  }

  /** In the first ten seconds PROBE_RTT is not entered. */
  lemma {:induction false} StaysOutOfProbeRtt(p: Params, k: Stack, e: Event, d: Steps)
    requires ParamsOk(p) && Invariant(p, k) && NonEmpty(e) && AreSteps(p, k, e, d)
    requires k.sender.mode == Startup && e.eventTime <= MIN_RTT_EXPIRY
    ensures EnterProbeRtt(d.changed, d.minRttExpired).mode != ProbeRtt
  {
    hide Account, Learn, ChangeModes, UpdateProbeRtt, Recalculate, Filtered, SampledEvent, WellFormed;
    AccountKeeps(p, k.sender, e);
    AccountOnly(k.sender, e);
    LearnKeeps(d.accounted, d.sample, e.eventTime);
    LearnOnly(d.accounted, d.sample, e.eventTime);
    ChangeModesPhase(p, d.learned, e, d.bandwidth, d.sample.lastPacketSendState,
                     StartsRound(k.sender, e.acked), d.bytesLost);
  }

  lemma {:induction false} SteadyRound(mds: nat, n: nat, i: nat)
    requires i < n <= 4 && ValidRun(Rounds(n, true)) && Steady(Before(TIGHT, mds, Rounds(n, true), 2 * i), i)
    requires Before(TIGHT, mds, Rounds(n, true), 2 * i).sender.lastSentPacket < i
    ensures Steady(Before(TIGHT, mds, Rounds(n, true), 2 * i + 2), i + 1)
    ensures Before(TIGHT, mds, Rounds(n, true), 2 * i + 2).sender.lastSentPacket == i
  {
    hide OnCongestionEvent, Before, WellFormed, ValidRun, Rounds, SampledEvent, Sent;
    var run := Rounds(n, true);
    RoundAt(n, true, i);
    BeforeStep(TIGHT, mds, run, 2 * i);
    BeforeStep(TIGHT, mds, run, 2 * i + 1);
    SteadyReport(Before(TIGHT, mds, run, 2 * i), i);
    SteadyAfterSend(Before(TIGHT, mds, run, 2 * i), i);
    SteadyEvent(Before(TIGHT, mds, run, 2 * i + 1), i);
    EventKeepsInvariant(TIGHT, Before(TIGHT, mds, run, 2 * i + 1), AckOf(i, true));
  }

  lemma {:induction false} SteadyAfterSend(k: Stack, i: nat)
    requires Steady(k, i)
    ensures Steady(OnPacketSent(k, SendTime(i), 0, i, PACKET, true), i)
  {
  }

  /** Full bandwidth is reached: by four rounds at a steady rate. */
  lemma {:induction false} FourSteadyRounds(mds: nat)
    ensures ValidRun(Rounds(4, true)) && Run(TIGHT, mds, Rounds(4, true)).sender.isAtFullBandwidth
  {
    hide Before, Invariant, Steady, ValidRun, Rounds;
    var run := Rounds(4, true);
    RoundsAreValid(4, true);
    StartsSteady(mds, run);
    SteadyRound(mds, 4, 0);
    SteadyRound(mds, 4, 1);
    SteadyRound(mds, 4, 2);
    SteadyRound(mds, 4, 3);
    SteadyIsFull(mds, run);
  }

  lemma {:induction false} StartsSteady(mds: nat, run: seq<Action>)
    requires ValidRun(run)
    ensures Steady(Before(TIGHT, mds, run, 0), 0) && Before(TIGHT, mds, run, 0).sender.lastSentPacket == -1
  {
    assert run[..0] == [];
  }

  lemma {:induction false} SteadyIsFull(mds: nat, run: seq<Action>)
    requires ValidRun(run) && |run| == 8 && Steady(Before(TIGHT, mds, run, 8), 4)
    ensures Run(TIGHT, mds, run).sender.isAtFullBandwidth
  {
    assert run[..8] == run;
  }

  // ---------- A recovery that ends early ----------

  /** One more packet, numbered next. */
  lemma {:induction false} SendMore(p: Params, mds: nat, run: seq<Action>, time: nat,
                                    inFlight: nat) returns (longer: seq<Action>)
    requires ParamsOk(p) && ValidRun(run)
    ensures ValidRun(longer) && run <= longer && LastSent(longer) == LastSent(run) + 1
    ensures |longer| == |run| + 1 && SentAt(longer, |run|, LastSent(run) + 1)
    ensures var s, t := Run(p, mds, run).sender, Run(p, mds, longer).sender;
            t.isAtFullBandwidth == s.isAtFullBandwidth && SameMarkers(s, t)
  {
    hide Run;
    LastSentIsHighest(run);
    longer := run + [Send(time, inFlight, LastSent(run) + 1, PACKET, true)];
    Extend(p, mds, run, Send(time, inFlight, LastSent(run) + 1, PACKET, true));
  }

  /**
   At full bandwidth, an ack of the last packet sent and the loss of the one before leave a
   recovery that ends beyond it.
   */
  lemma {:induction false} LoseMixed(p: Params, mds: nat, run: seq<Action>, time: nat) returns (longer: seq<Action>)
    requires ParamsOk(p) && ValidRun(run) && Run(p, mds, run).sender.isAtFullBandwidth && LastSent(run) > 0
    ensures ValidRun(longer) && run <= longer && LastSent(longer) == LastSent(run)
    ensures var t := Run(p, mds, longer).sender; t.recoveryState != NotInRecovery && t.endRecoveryAt == LastSent(run)
  {
    hide Run, OnCongestionEvent, WellFormed, WindowsOk, WholeBytes;
    LastSentIsHighest(run);
    var e := Event(2 * PACKET, time, [AckedPacket(LastSent(run), PACKET)],
                   [LostPacket(LastSent(run) - 1, PACKET)], 0, 0, 0);
    assert LastAcked(e) == LastSent(run);
    Extend(p, mds, run, Congestion(e));
    longer := run + [Congestion(e)];
    EventKeepsInvariant(p, Run(p, mds, run), e);
    AccountMarkers(Run(p, mds, run).sender, e);
  }

  /** Action j acknowledges the packet that action k sent, and loses nothing. */
  ghost predicate AcksPacketOf(run: seq<Action>, j: nat, k: nat) {
    && j < |run| && run[j].Congestion? && |run[j].event.acked| == 1 && run[j].event.lost == []
    && SentAt(run, k, LastAcked(run[j].event))
  }

  /** Two packets are sent, one of them is lost, and two more are sent in the recovery that follows. */
  lemma {:induction false} IntoRecovery(p: Params, mds: nat, run: seq<Action>, time: nat) returns (longer: seq<Action>)
    requires ParamsOk(p) && ValidRun(run) && Run(p, mds, run).sender.isAtFullBandwidth
    ensures ValidRun(longer) && run <= longer && LastSent(longer) > 0 && SentAt(longer, |longer| - 1, LastSent(longer))
    ensures var s := Run(p, mds, longer).sender; s.recoveryState != NotInRecovery && s.endRecoveryAt < LastSent(longer)
  {
    hide Run, ValidRun, LastSent;
    LastSentIsHighest(run);
    longer := SendMore(p, mds, run, time, 0);
    longer := SendMore(p, mds, longer, time, PACKET);
    longer := LoseMixed(p, mds, longer, time + SECOND);
    longer := SendMore(p, mds, longer, time + SECOND, 0);
    longer := SendMore(p, mds, longer, time + SECOND, PACKET);
  }

  /**
   Every run at full bandwidth has a continuation that reports losses in an event without acks,
   and ends its recovery on the next ack, of a packet sent before those losses were reported.
   */
  lemma {:induction false} RecoveryCanEndEarly(p: Params, mds: nat, run: seq<Action>, time: nat)
    returns (longer: seq<Action>, i: nat, k: nat)
    requires ParamsOk(p) && ValidRun(run) && Run(p, mds, run).sender.isAtFullBandwidth
    ensures ValidRun(longer) && run <= longer
    ensures LossOnlyAt(longer, i) && AcksPacketOf(longer, i + 1, k) && k < i
    ensures RecoveryEndsAt(p, mds, longer, i + 1)
  {
    hide Run, RecoveryEndsAt, ValidRun, LastSent;
    var sent := IntoRecovery(p, mds, run, time);
    var last := LastSent(sent);
    var lossOnly := Event(2 * PACKET, time + 2 * SECOND, [], [LostPacket(last - 1, PACKET)], 0, 0, 0);
    var ack := Event(PACKET, time + 2 * SECOND, [AckedPacket(last, PACKET)], [], 0, 0, 0);
    AckEndsEarly(p, mds, sent, lossOnly, ack);
    i, k := |sent|, |sent| - 1;
    longer := WithEvents(sent, lossOnly, ack);
    assert SentAt(longer, k, LastAcked(ack));
  }

  /** So there is such a run: the code ends a recovery that its documentation would not. */
  lemma {:induction false} SomeRecoveryEndsEarly(mds: nat) returns (run: seq<Action>, i: nat, k: nat)
    ensures ValidRun(run) && LossOnlyAt(run, i) && AcksPacketOf(run, i + 1, k) && k < i
    ensures RecoveryEndsAt(TIGHT, mds, run, i + 1)
  {
    hide RecoveryEndsAt, Rounds;
    FourSteadyRounds(mds);
    run, i, k := RecoveryCanEndEarly(TIGHT, mds, Rounds(4, true), SendTime(4));
  }
}
