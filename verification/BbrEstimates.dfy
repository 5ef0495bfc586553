/**
 What the BBR sender's estimates and counters mean over whole runs: the bandwidth estimate is a
 windowed maximum over rounds, the round-trip estimate a minimum since it was taken, the loss
 counters count the current round, and PROBE_RTT keeps its distance
 (congestion_meta2/bbr_sender.go:402-502, 593-602, 632-639, 728-767).
 */
module BbrEstimates {
  import opened Wrappers
  import opened BandwidthSamplers
  import opened BbrModel
  import opened BbrFrames
  import opened BbrInvariants
  import opened BbrTraces
  import opened BbrPhases
  import WindowedFilters

  /** The sender's counters and its round-trip estimate. */
  datatype Readings = Readings(round: nat, minRtt: int, stamp: nat, lossEvents: nat, lostBytes: int)

  function ReadingsOf(s: Sender): Readings {
    Readings(s.roundTripCount, s.minRtt, s.minRttTimestamp, s.numLossEventsInRound, s.bytesLostInRound)
  }

  // ---------- One event ----------

  /** The event's sample replaces the round-trip estimate: that was unknown, or larger, or over ten seconds old. */
  predicate Renews(before: int, stamp: nat, now: nat, sampleRtt: Option<int>) {
    sampleRtt.Some? && (before == 0 || sampleRtt.value < before || now > stamp + 10_000_000_000)
  }

  /** The round-trip estimate takes exactly those samples. */
  ghost predicate RttLearned(before: int, stamp: nat, now: nat, sampleRtt: Option<int>, after: int) {
    after == if Renews(before, stamp, now, sampleRtt) then sampleRtt.value else before
  }

  lemma {:induction false} IsExpired(s: Sender, now: nat)
    ensures MinRttExpired(s, now) ==> s.minRtt != 0 && now > s.minRttTimestamp + MIN_RTT_EXPIRY
  {
  }

  lemma {:induction false} LearnReads(s: Sender, sample: EventSample, now: nat)
    ensures var r := ReadingsOf(Learn(s, sample, now));
            && RttLearned(s.minRtt, s.minRttTimestamp, now, sample.sampleRtt, r.minRtt)
            && r.stamp == if Renews(s.minRtt, s.minRttTimestamp, now, sample.sampleRtt) then now else s.minRttTimestamp
  {
  }

  /** PROBE_RTT is entered on an expired estimate only, and leaving it renews the time stamp. */
  lemma {:induction false} ProbeRttReads(p: Params, s: Sender, now: nat, isRoundStart: bool, minRttExpired: bool,
                                         draw: nat)
    ensures var t := UpdateProbeRtt(p, s, now, isRoundStart, minRttExpired, draw);
            && t.minRttTimestamp == (if s.mode == ProbeRtt && t.mode != ProbeRtt then now else s.minRttTimestamp)
            && (s.mode != ProbeRtt && t.mode == ProbeRtt ==> minRttExpired)
  {
    hide GainAt, CycleOffset;
  }

  lemma {:induction false} LoseAllSums(s: State, lost: seq<LostPacket>)
    ensures LoseAll(s, lost).0.totalBytesLost == s.totalBytesLost + SumLost(lost)
  {
    if lost != [] {
      LoseAllSums(s, lost[..|lost| - 1]);
    }
  }

  lemma {:induction false} RttIsNotZero(s: State, ackTime: nat, acked: seq<AckedPacket>)
    requires WellFormed(s)
    ensures var rtt := AckAll(s, ackTime, acked).1.sampleRtt; rtt.Some? ==> rtt.value != 0
  {
    hide WellFormed, Acked;
    if acked != [] {
      RttIsNotZero(s, ackTime, acked[..|acked| - 1]);
    }
  }

  /** What the sampler reports of an event: all the bytes lost, and no round trip of zero. */
  lemma {:induction false} EventReport(p: Params, k: Stack, e: Event)
    requires WellFormed(k.sampler)
    ensures var (sampled, sample) := SampledEvent(p, k, e);
            && sampled.totalBytesLost - k.sampler.totalBytesLost == SumLost(e.lost)
            && (sample.sampleRtt.Some? ==> sample.sampleRtt.value != 0)
  {
    OthersKeepWellFormed(k.sampler, 0, 0, 0);
    var s := if IsAppLimited(p, k.sender, e.priorInFlight) then LimitedByApp(k.sampler) else k.sampler;
    LoseAllKeepsWellFormed(s, e.lost);
    LoseAllSums(s, e.lost);
    AckAllWholeBytes(LoseAll(s, e.lost).0, e.eventTime, e.acked);
    RttIsNotZero(LoseAll(s, e.lost).0, e.eventTime, e.acked);
  }

  /** The sample that an event yields, and whether the event acknowledges any tracked byte. */
  function SampleAt(p: Params, k: Stack, e: Event): EventSample
    requires WellFormed(k.sampler)
  {
    SampledEvent(p, k, e).1
  }

  /** One event's effect on the readings. */
  ghost predicate ReadingsStep(s: Readings, t: Readings, e: Event, sampleRtt: Option<int>, isRoundStart: bool) {
    && t.round == s.round + (if isRoundStart then 1 else 0)
    && RttLearned(s.minRtt, s.stamp, e.eventTime, sampleRtt, t.minRtt)
    && (t.stamp == s.stamp || t.stamp == e.eventTime)
    && t.lossEvents == (if isRoundStart then 0 else s.lossEvents + if e.lost != [] then 1 else 0)
    && t.lostBytes == (if isRoundStart then 0 else s.lostBytes + SumLost(e.lost))
  }

  /**
   PROBE_RTT is entered only when the round-trip estimate is over ten seconds old. The stamp is
   renewed with the estimate, and on leaving PROBE_RTT, and at no other time.
   */
  ghost predicate ProbeRttStep(s: Sender, t: Sender, now: nat, sampleRtt: Option<int>) {
    && (s.mode != ProbeRtt && t.mode == ProbeRtt ==> s.minRtt != 0 && now > s.minRttTimestamp + 10_000_000_000)
    && t.minRttTimestamp == if Renews(s.minRtt, s.minRttTimestamp, now, sampleRtt)
                               || (s.mode == ProbeRtt && t.mode != ProbeRtt)
                            then now else s.minRttTimestamp
  }

  lemma {:induction false} EventReads(p: Params, k: Stack, e: Event)
    requires ParamsOk(p) && Invariant(p, k) && NonEmpty(e)
    ensures var k', sample := OnCongestionEvent(p, k, e), SampleAt(p, k, e);
            && ReadingsStep(ReadingsOf(k.sender), ReadingsOf(k'.sender), e, sample.sampleRtt,
                            StartsRound(k.sender, e.acked))
            && ProbeRttStep(k.sender, k'.sender, e.eventTime, sample.sampleRtt)
            && k'.filter == Filtered(k.filter, sample, k'.sender.roundTripCount,
                                     k'.sampler.totalBytesAcked != k.sampler.totalBytesAcked)
  {
    hide Account, Learn, ChangeModes, UpdateProbeRtt, Recalculate, Filtered, SampledEvent, MinRttExpired, ResetLosses,
         StartsRound, WellFormed, ModesAgreeMidEvent, WindowsOkMidEvent, WholeBytes, OnCongestionEvent, SumLost;
    var d := EventIsItsSteps(p, k, e);
    var isRoundStart := StartsRound(k.sender, e.acked);
    EventReport(p, k, e);
    NoLossNoBytes(e.lost);
    AccountKeeps(p, k.sender, e);
    AccountOnly(k.sender, e);
    LearnKeeps(d.accounted, d.sample, e.eventTime);
    LearnOnly(d.accounted, d.sample, e.eventTime);
    LearnReads(d.accounted, d.sample, e.eventTime);
    ChangeModesOnly(p, d.learned, e, d.bandwidth, d.sample.lastPacketSendState, isRoundStart, d.bytesLost);
    ChangeModesPhase(p, d.learned, e, d.bandwidth, d.sample.lastPacketSendState, isRoundStart, d.bytesLost);
    ProbeRttOnly(p, d.changed, e.eventTime, isRoundStart, d.minRttExpired, e.draw);
    ProbeRttReads(p, d.changed, e.eventTime, isRoundStart, d.minRttExpired, e.draw);
    LimitsOnly(p, d.probed, e, d.bandwidth, d.bytesAcked, d.totalBytesAcked, d.bytesLost);
    ResetOnly(d.recalculated, isRoundStart);
    IsExpired(d.accounted, e.eventTime);
  }

  lemma {:induction false} NoLossNoBytes(lost: seq<LostPacket>)
    ensures lost == [] ==> SumLost(lost) == 0
  {
  }

  // ---------- Runs ----------

  function ReadingsBefore(p: Params, mds: nat, run: seq<Action>, i: nat): Readings
    requires ParamsOk(p) && ValidRun(run) && i <= |run|
  {
    ReadingsOf(Before(p, mds, run, i).sender)
  }

  /** The round-trip time that action i samples, if it is an event that samples one. */
  function RttAt(p: Params, mds: nat, run: seq<Action>, i: nat): Option<int>
    requires ParamsOk(p) && ValidRun(run) && i < |run|
  {
    if run[i].Congestion? then SampleAt(p, Before(p, mds, run, i), run[i].event).sampleRtt else None
  }

  lemma {:induction false} ActionReads(p: Params, mds: nat, run: seq<Action>, i: nat)
    requires ParamsOk(p) && ValidRun(run) && i < |run|
    ensures var s, t := ReadingsBefore(p, mds, run, i), ReadingsBefore(p, mds, run, i + 1);
            if run[i].Congestion?
            then ReadingsStep(s, t, run[i].event, RttAt(p, mds, run, i), RoundStartsAt(p, mds, run, i))
            else t == s
    ensures var s, t := Before(p, mds, run, i).sender, Before(p, mds, run, i + 1).sender;
            if run[i].Congestion? then ProbeRttStep(s, t, run[i].event.eventTime, RttAt(p, mds, run, i))
            else t.mode == s.mode
    ensures RttAt(p, mds, run, i).Some? ==> RttAt(p, mds, run, i).value != 0
  {
    hide OnCongestionEvent, WellFormed, Before, ReadingsStep, ProbeRttStep, StartsRound, SampledEvent;
    BeforeStep(p, mds, run, i);
    if run[i].Congestion? {
      assert NonEmpty(run[i].event);
      EventReads(p, Before(p, mds, run, i), run[i].event);
      EventReport(p, Before(p, mds, run, i), run[i].event);
    }
  }

  lemma {:induction false} StartReads(p: Params, mds: nat, run: seq<Action>)
    requires ParamsOk(p) && ValidRun(run)
    ensures ReadingsBefore(p, mds, run, 0) == Readings(0, 0, UNSET_TIME, 0, 0)
  {
    assert run[..0] == [];
  }

  // ---------- The round-trip estimate ----------

  /**
   A known round-trip estimate is the sample of some event, and no event since has sampled less.
   */
  lemma {:induction false} MinRttIsLeastSince(p: Params, mds: nat, run: seq<Action>, n: nat) returns (j: nat)
    requires ParamsOk(p) && ValidRun(run) && n <= |run|
    requires Before(p, mds, run, n).sender.minRtt != 0
    ensures j < n && RttAt(p, mds, run, j) == Some(Before(p, mds, run, n).sender.minRtt)
    ensures forall k :: j < k < n && RttAt(p, mds, run, k).Some? ==>
              RttAt(p, mds, run, k).value >= Before(p, mds, run, n).sender.minRtt
    decreases n
  {
    hide Before, RttAt, ValidRun, RoundStartsAt;
    StartReads(p, mds, run);
    assert ReadingsBefore(p, mds, run, n).minRtt != 0;
    ActionReads(p, mds, run, n - 1);
    NoEventNoRtt(p, mds, run, n - 1);
    if RttAt(p, mds, run, n - 1) == Some(Before(p, mds, run, n).sender.minRtt) {
      j := n - 1;
    } else {
      j := MinRttIsLeastSince(p, mds, run, n - 1);
    }
  }

  lemma {:induction false} NoEventNoRtt(p: Params, mds: nat, run: seq<Action>, i: nat)
    requires ParamsOk(p) && ValidRun(run) && i < |run|
    ensures !run[i].Congestion? ==> RttAt(p, mds, run, i) == None
  {
  }

  /** The estimate is unknown exactly as long as no event has sampled a round trip. */
  lemma {:induction false} MinRttUnknownIff(p: Params, mds: nat, run: seq<Action>, n: nat)
    requires ParamsOk(p) && ValidRun(run) && n <= |run|
    ensures Before(p, mds, run, n).sender.minRtt == 0 <==> forall k :: 0 <= k < n ==> RttAt(p, mds, run, k) == None
    decreases n
  {
    hide Before, RttAt, ValidRun, RoundStartsAt;
    if n == 0 {
      StartReads(p, mds, run);
      assert ReadingsBefore(p, mds, run, 0).minRtt == Before(p, mds, run, 0).sender.minRtt;
    } else {
      MinRttUnknownIff(p, mds, run, n - 1);
      ActionReads(p, mds, run, n - 1);
      NoEventNoRtt(p, mds, run, n - 1);
      assert ReadingsBefore(p, mds, run, n - 1).minRtt == Before(p, mds, run, n - 1).sender.minRtt;
      assert ReadingsBefore(p, mds, run, n).minRtt == Before(p, mds, run, n).sender.minRtt;
    }
  }

  /** After every event that samples a round trip, the estimate is at most ten seconds old. */
  lemma {:induction false} RttIsFresh(p: Params, mds: nat, run: seq<Action>, i: nat)
    requires ParamsOk(p) && ValidRun(run) && i < |run| && RttAt(p, mds, run, i).Some?
    ensures run[i].Congestion?
    ensures run[i].event.eventTime <= Before(p, mds, run, i + 1).sender.minRttTimestamp + 10_000_000_000
  {
    hide Before, RttAt, ValidRun, RoundStartsAt, ReadingsStep;
    NoEventNoRtt(p, mds, run, i);
    ActionReads(p, mds, run, i);
  }

  // ---------- The spacing of PROBE_RTT ----------

  /** Event times do not go back. */
  ghost predicate EventTimesForward(run: seq<Action>) {
    forall i, j :: 0 <= i < j < |run| && run[i].Congestion? && run[j].Congestion? ==>
        run[i].event.eventTime <= run[j].event.eventTime
  }

  lemma {:induction false} StampSince(p: Params, mds: nat, run: seq<Action>, i: nat, n: nat)
    requires ParamsOk(p) && ValidRun(run) && EventTimesForward(run) && i < n <= |run| && run[i].Congestion?
    requires ReadingsBefore(p, mds, run, i + 1).stamp == run[i].event.eventTime
    ensures ReadingsBefore(p, mds, run, n).stamp >= run[i].event.eventTime
    decreases n
  {
    hide ReadingsBefore, RttAt, ValidRun, RoundStartsAt, Before, Invariant, ProbeRttStep, RttLearned;
    if n > i + 1 {
      StampSince(p, mds, run, i, n - 1);
      ActionReads(p, mds, run, n - 1);
    }
  }

  /** After leaving PROBE_RTT, the sender does not enter it again for ten seconds. */
  lemma {:induction false} ProbeRttIsSpaced(p: Params, mds: nat, run: seq<Action>, i: nat, j: nat)
    requires ParamsOk(p) && ValidRun(run) && EventTimesForward(run) && i < j < |run|
    requires Before(p, mds, run, i).sender.mode == ProbeRtt != Before(p, mds, run, i + 1).sender.mode
    requires Before(p, mds, run, j).sender.mode != ProbeRtt == Before(p, mds, run, j + 1).sender.mode
    ensures run[i].Congestion? && run[j].Congestion?
    ensures run[j].event.eventTime > run[i].event.eventTime + MIN_RTT_EXPIRY
  {
    hide Before, RttAt, ValidRun, RoundStartsAt;
    ActionReads(p, mds, run, i);
    ActionReads(p, mds, run, j);
    StampSince(p, mds, run, i, j);
  }

  // ---------- The counters of a round ----------

  /** How many of the first n actions start a round. */
  ghost function RoundsStarted(p: Params, mds: nat, run: seq<Action>, n: nat): nat
    requires ParamsOk(p) && ValidRun(run) && n <= |run|
  {
    if n == 0 then 0 else RoundsStarted(p, mds, run, n - 1) + if RoundStartsAt(p, mds, run, n - 1) then 1 else 0
  }

  /** How many events carry losses among the first n actions, after the last that started a round. */
  ghost function LossEventsInRound(p: Params, mds: nat, run: seq<Action>, n: nat): nat
    requires ParamsOk(p) && ValidRun(run) && n <= |run|
  {
    if n == 0 || RoundStartsAt(p, mds, run, n - 1) then 0
    else LossEventsInRound(p, mds, run, n - 1) + if run[n - 1].Congestion? && run[n - 1].event.lost != [] then 1 else 0
  }

  /** How many bytes those events lose. */
  ghost function BytesLostInRound(p: Params, mds: nat, run: seq<Action>, n: nat): nat
    requires ParamsOk(p) && ValidRun(run) && n <= |run|
  {
    if n == 0 || RoundStartsAt(p, mds, run, n - 1) then 0
    else BytesLostInRound(p, mds, run, n - 1) + if run[n - 1].Congestion? then SumLost(run[n - 1].event.lost) else 0
  }

  /** The round counter counts the rounds, and the loss counters the losses since the last one started. */
  lemma {:induction false} CountersCount(p: Params, mds: nat, run: seq<Action>, n: nat)
    requires ParamsOk(p) && ValidRun(run) && n <= |run|
    ensures var r := ReadingsBefore(p, mds, run, n);
            && r.round == RoundsStarted(p, mds, run, n)
            && r.lossEvents == LossEventsInRound(p, mds, run, n)
            && r.lostBytes == BytesLostInRound(p, mds, run, n)
    decreases n
  {
    hide ReadingsBefore, RttAt, ValidRun, StartsRound, RttLearned, SumLost, Before;
    if n == 0 {
      StartReads(p, mds, run);
    } else {
      CountersCount(p, mds, run, n - 1);
      ActionReads(p, mds, run, n - 1);
    }
  }

  // ---------- The bandwidth estimate ----------

  /**
   Event e is fed to the filter: it acknowledges tracked bytes, with a sample that is not
   app-limited or a new best.
   */
  ghost predicate Feeds(p: Params, k: Stack, e: Event, k': Stack)
    requires WellFormed(k.sampler)
  {
    var sample := SampleAt(p, k, e);
    k'.sampler.totalBytesAcked != k.sampler.totalBytesAcked
    && (!sample.sampleIsAppLimited || sample.sampleMaxBandwidth > k.filter[0].sample)
  }

  /** The samples fed to the filter by the first n actions, with their rounds. */
  ghost function History(p: Params, mds: nat, run: seq<Action>, n: nat): seq<WindowedFilters.Entry>
    requires ParamsOk(p) && ValidRun(run) && n <= |run|
  {
    if n == 0 then []
    else
      var h := History(p, mds, run, n - 1);
      if run[n - 1].Congestion?
      then Extended(p, h, Before(p, mds, run, n - 1), run[n - 1].event, Before(p, mds, run, n))
      else h
  }

  /** The history once event e has had its chance to feed the filter. */
  ghost function Extended(p: Params, h: seq<WindowedFilters.Entry>, k: Stack, e: Event,
                          k': Stack): seq<WindowedFilters.Entry>
    requires WellFormed(k.sampler)
  {
    if Feeds(p, k, e, k')
    then h + [WindowedFilters.Entry(SampleAt(p, k, e).sampleMaxBandwidth, k'.sender.roundTripCount)]
    else h
  }

  /** The filter has run on the history, in order, up to the current round. */
  ghost predicate RunOn(k: Stack, h: seq<WindowedFilters.Entry>) {
    && k.filter == WindowedFilters.Run(BANDWIDTH_WINDOW_SIZE, h)
    && WindowedFilters.Chronological(h)
    && (forall i :: 0 <= i < |h| ==> h[i].time <= k.sender.roundTripCount)
  }

  lemma {:induction false} EventRunsOn(p: Params, h: seq<WindowedFilters.Entry>, k: Stack, e: Event, k': Stack)
    requires WellFormed(k.sampler) && RunOn(k, h) && k'.sender.roundTripCount >= k.sender.roundTripCount
    requires k'.filter == Filtered(k.filter, SampleAt(p, k, e), k'.sender.roundTripCount,
                                   k'.sampler.totalBytesAcked != k.sampler.totalBytesAcked)
    ensures RunOn(k', Extended(p, h, k, e, k'))
  {
    hide WellFormed, SampleAt, WindowedFilters.Updated;
    var g := Extended(p, h, k, e, k');
    if Feeds(p, k, e, k') {
      assert g[..|g| - 1] == h;
    }
  }

  /** The sender's filter is the filter run on those samples, whose rounds never go back. */
  lemma {:induction false} FilterIsRunOnHistory(p: Params, mds: nat, run: seq<Action>, n: nat)
    requires ParamsOk(p) && ValidRun(run) && n <= |run|
    ensures RunOn(Before(p, mds, run, n), History(p, mds, run, n))
    decreases n
  {
    hide Before, RunOn, Extended, ValidRun;
    if n == 0 {
      StartRunsOn(p, mds, run);
    } else {
      FilterIsRunOnHistory(p, mds, run, n - 1);
      ActionRunsOn(p, mds, run, n - 1, History(p, mds, run, n - 1));
    }
  }

  lemma {:induction false} StartRunsOn(p: Params, mds: nat, run: seq<Action>)
    requires ParamsOk(p) && ValidRun(run)
    ensures RunOn(Before(p, mds, run, 0), [])
  {
    assert run[..0] == [];
  }

  lemma {:induction false} ActionRunsOn(p: Params, mds: nat, run: seq<Action>, i: nat, h: seq<WindowedFilters.Entry>)
    requires ParamsOk(p) && ValidRun(run) && i < |run| && RunOn(Before(p, mds, run, i), h)
    ensures RunOn(Before(p, mds, run, i + 1),
                  if run[i].Congestion?
                  then Extended(p, h, Before(p, mds, run, i), run[i].event, Before(p, mds, run, i + 1))
                  else h)
  {
    hide WellFormed, StartsRound, SampleAt, OnCongestionEvent, RttLearned, Extended, Filtered, Before, RunOn,
         ModesAgree, WindowsOk, MarkersSent, WholeBytes;
    BeforeStep(p, mds, run, i);
    var k, k' := Before(p, mds, run, i), Before(p, mds, run, i + 1);
    if run[i].Congestion? {
      assert NonEmpty(run[i].event);
      EventReads(p, k, run[i].event);
      EventRunsOn(p, h, k, run[i].event, k');
    } else {
      SameRunOn(k, k', h);
    }
  }

  lemma {:induction false} SameRunOn(k: Stack, k': Stack, h: seq<WindowedFilters.Entry>)
    requires k'.filter == k.filter && k'.sender.roundTripCount == k.sender.roundTripCount
    ensures RunOn(k', h) == RunOn(k, h)
  {
  }

  /**
   The bandwidth estimate is a windowed maximum: it is one of the samples fed to the filter, at
   most ten rounds older than the newest, and no sample fed since it is larger. When the last
   peak has expired, the largest sample that came more than two rounds after it stands in for it,
   and in its turn the largest more than five rounds after that one.
   */
  lemma {:induction false} EstimateIsWindowedMaximum(p: Params, mds: nat, run: seq<Action>, n: nat) returns (i: nat)
    requires ParamsOk(p) && ValidRun(run) && n <= |run| && History(p, mds, run, n) != []
    ensures var h := History(p, mds, run, n);
            && WindowedFilters.TopsSuffix(h, i) && h[i] == Before(p, mds, run, n).filter[0]
            && h[|h| - 1].time - h[i].time <= 10
    ensures RunnersUpBelow(History(p, mds, run, n), Before(p, mds, run, n).filter[0].sample)
  {
    hide Before, History, WindowedFilters.Run, WindowedFilters.TopsSuffix, RunnersUpBelow;
    var h := History(p, mds, run, n);
    FilterIsRunOnHistory(p, mds, run, n);
    RunnersUpHold(h);
    WindowedFilters.EstimatesAreSuffixMaxima(BANDWIDTH_WINDOW_SIZE, h);
    var e := WindowedFilters.Run(BANDWIDTH_WINDOW_SIZE, h);
    var j: nat, k: nat;
    i, j, k :| WindowedFilters.SuffixMaximaAt(h, e, i, j, k);
  }

  /** Record i is the last peak, and record j, at most ten rounds old, the largest more than two rounds after it. */
  ghost predicate RunnerUp(h: seq<WindowedFilters.Entry>, i: nat, j: nat) {
    && WindowedFilters.LastPeak(BANDWIDTH_WINDOW_SIZE, h, i) && WindowedFilters.TopsAfter(h, i, 2, j)
    && h[|h| - 1].time - h[j].time <= 10
  }

  /** Record l, within ten rounds of the last peak i, is the largest more than five rounds after its runner-up j. */
  ghost predicate ThirdRecord(h: seq<WindowedFilters.Entry>, i: nat, j: nat, l: nat) {
    && WindowedFilters.LastPeak(BANDWIDTH_WINDOW_SIZE, h, i) && WindowedFilters.TopsAfter(h, i, 2, j)
    && WindowedFilters.BeatsLater(h, j) && WindowedFilters.TopsAfter(h, j, 5, l)
    && h[l].time - h[i].time <= 10 && h[|h| - 1].time - h[l].time <= 10
  }

  ghost predicate RunnersUpBelow(h: seq<WindowedFilters.Entry>, best: nat) {
    && (forall i: nat, j: nat :: RunnerUp(h, i, j) ==> best >= h[j].sample)
    && (forall i: nat, j: nat, l: nat :: ThirdRecord(h, i, j, l) ==> best >= h[l].sample)
  }

  lemma {:induction false} RunnersUpHold(h: seq<WindowedFilters.Entry>)
    requires h != [] && WindowedFilters.Chronological(h)
    ensures RunnersUpBelow(h, WindowedFilters.Run(BANDWIDTH_WINDOW_SIZE, h)[0].sample)
  {
    hide WindowedFilters.Run, WindowedFilters.Chronological;
    var best := WindowedFilters.Run(BANDWIDTH_WINDOW_SIZE, h)[0].sample;
    forall i: nat, j: nat | RunnerUp(h, i, j) ensures best >= h[j].sample {
      WindowedFilters.RunnerUpIsRetained(BANDWIDTH_WINDOW_SIZE, h, i, j);
    }
    forall i: nat, j: nat, l: nat | ThirdRecord(h, i, j, l) ensures best >= h[l].sample {
      WindowedFilters.ThirdIsRetained(BANDWIDTH_WINDOW_SIZE, h, i, j, l);
    }
  }
}
