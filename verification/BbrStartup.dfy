/**
 STARTUP of the BBR sender ends: a logarithmic bound on the number of rounds that judge the
 bandwidth before it is declared full (congestion_meta2/bbr_sender.go:465-468, 678-699).
 */
module BbrStartup {
  import opened BandwidthSamplers
  import opened BbrModel
  import opened BbrFrames
  import opened BbrInvariants
  import opened BbrTraces
  import opened BbrEstimates

  /** The part of the sender that watches the bandwidth grow. */
  datatype Watch = Watch(full: bool, stalled: nat, reference: nat)

  function WatchOf(s: Sender): Watch {
    Watch(s.isAtFullBandwidth, s.roundsWithoutBandwidthGain, s.bandwidthAtLastRound)
  }

  // ---------- One event ----------

  /** Losses so heavy that they end STARTUP: in eight events, more than two hundredths of the flight. */
  ghost predicate HeavyLoss(events: nat, bytes: int, last: SendTimeState) {
    events >= 8 && last.isValid && 50 * bytes > last.bytesInFlight > 0
  }

  lemma {:induction false} ExitsByHeavyLoss(s: Sender, last: SendTimeState)
    ensures ExitsStartupByLoss(s, last) <==> HeavyLoss(s.numLossEventsInRound, s.bytesLostInRound, last)
  {
    var x := LOSS_THRESHOLD * last.bytesInFlight as real;
    assert x == last.bytesInFlight as real / 50.0;
    assert x.Floor as real <= x < x.Floor as real + 1.0;
  }

  /** The verdict of one round on the bandwidth: it grew, or it stalled once more. */
  ghost predicate Judged(before: Watch, after: Watch, bandwidth: nat, heavyLoss: bool) {
    if bandwidth >= GrowthTarget(before.reference)
    then after == Watch(false, 0, bandwidth)
    else after.stalled == before.stalled + 1 && after.reference == before.reference
         && (after.full <==> after.stalled >= NUM_STARTUP_RTTS || heavyLoss)
  }

  /**
   This event judges the bandwidth: it starts a round before full bandwidth, with a sample that is
   not app-limited.
   */
  ghost predicate Judges(s: Sender, acked: seq<AckedPacket>, t: Sender) {
    StartsRound(s, acked) && !s.isAtFullBandwidth && !t.lastSampleIsAppLimited
  }

  lemma {:induction false} ChangeModesJudges(p: Params, s: Sender, e: Event, bandwidth: nat, last: SendTimeState,
                                             isRoundStart: bool, bytesLost: int)
    requires ModesAgree(s)
    ensures var lossy := CountLosses(s, e.lost != [], bytesLost);
            var t := ChangeModes(p, s, e, bandwidth, last, isRoundStart, bytesLost);
            && t.lastSampleIsAppLimited == s.lastSampleIsAppLimited
            && t.hasNoAppLimitedSample == s.hasNoAppLimitedSample
            && if isRoundStart && !s.isAtFullBandwidth && !s.lastSampleIsAppLimited
               then Judged(WatchOf(s), WatchOf(t), bandwidth,
                           HeavyLoss(lossy.numLossEventsInRound, lossy.bytesLostInRound, last))
               else WatchOf(t) == WatchOf(s)
  {
    hide UpdateGainCycle, ExitStartupOrDrain, GrowthTarget, ExitsStartupByLoss, HeavyLoss;
    var lossy := CountLosses(s, e.lost != [], bytesLost);
    GainCycleOnly(p, lossy, bandwidth, e);
    var cycled := if lossy.mode == ProbeBw
                  then UpdateGainCycle(p, lossy, bandwidth, e.rttMin, e.eventTime, e.priorInFlight, e.lost != [])
                  else lossy;
    assert WatchOf(cycled) == WatchOf(s) && cycled.lastSampleIsAppLimited == s.lastSampleIsAppLimited;
    assert cycled.hasNoAppLimitedSample == s.hasNoAppLimitedSample;
    var checked := Checked(p, s, e, bandwidth, last, isRoundStart, bytesLost);
    ExitsByHeavyLoss(cycled.(roundsWithoutBandwidthGain := cycled.roundsWithoutBandwidthGain + 1), last);
    ExitStartupOnly(p, checked, bandwidth, e.rttMin, e.eventTime, e.draw);
  }

  /** The losses of the current round, this event's included, are heavy. */
  ghost predicate HeavyLossBy(p: Params, k: Stack, e: Event)
    requires WellFormed(k.sampler)
  {
    HeavyLoss(k.sender.numLossEventsInRound + if e.lost != [] then 1 else 0,
              k.sender.bytesLostInRound + SumLost(e.lost),
              SampleAt(p, k, e).lastPacketSendState)
  }

  /** An event judges the bandwidth the filter reports, or leaves the watch alone. */
  lemma {:induction false} EventJudges(p: Params, k: Stack, e: Event)
    requires ParamsOk(p) && Invariant(p, k) && NonEmpty(e)
    ensures var k' := OnCongestionEvent(p, k, e);
            if Judges(k.sender, e.acked, k'.sender)
            then Judged(WatchOf(k.sender), WatchOf(k'.sender), k'.filter[0].sample, HeavyLossBy(p, k, e))
            else WatchOf(k'.sender) == WatchOf(k.sender)
    ensures var last := SampleAt(p, k, e).lastPacketSendState;
            OnCongestionEvent(p, k, e).sender.lastSampleIsAppLimited
              == if last.isValid then last.isAppLimited else k.sender.lastSampleIsAppLimited
    ensures var last := SampleAt(p, k, e).lastPacketSendState;
            OnCongestionEvent(p, k, e).sender.hasNoAppLimitedSample
              == (k.sender.hasNoAppLimitedSample || (last.isValid && !last.isAppLimited))
  {
    hide Account, Learn, ChangeModes, UpdateProbeRtt, Recalculate, Filtered, SampledEvent, MinRttExpired,
         ResetLosses, SumLost, StartsRound, WellFormed, ModesAgreeMidEvent, WindowsOkMidEvent, WholeBytes,
         OnCongestionEvent, Judged, HeavyLoss;
    var d := EventIsItsSteps(p, k, e);
    var isRoundStart := StartsRound(k.sender, e.acked);
    EventReport(p, k, e);
    NoLossNoBytes(e.lost);
    AccountKeeps(p, k.sender, e);
    AccountOnly(k.sender, e);
    LearnKeeps(d.accounted, d.sample, e.eventTime);
    LearnOnly(d.accounted, d.sample, e.eventTime);
    ChangeModesJudges(p, d.learned, e, d.bandwidth, d.sample.lastPacketSendState, isRoundStart, d.bytesLost);
    ProbeRttOnly(p, d.changed, e.eventTime, isRoundStart, d.minRttExpired, e.draw);
    LimitsOnly(p, d.probed, e, d.bandwidth, d.bytesAcked, d.totalBytesAcked, d.bytesLost);
    ResetOnly(d.recalculated, isRoundStart);
  }

  // ---------- The measure ----------

  /** The least reference that a growth from this one can set, for a bandwidth of at least 4. */
  function NextReference(reference: nat): (next: nat)
    ensures next > reference && next >= 4
  {
    if 5 * reference / 4 >= 4 then 5 * reference / 4 else 4
  }

  lemma {:induction false} GrowthTargetIs(reference: nat)
    ensures GrowthTarget(reference) == 5 * reference / 4
  {
    var r := STARTUP_GROWTH_TARGET * reference as real;
    assert r == (5 * reference) as real / 4.0;
    assert (5 * reference / 4) as real <= r < (5 * reference / 4 + 1) as real;
  }

  /** How often the reference can still grow without passing the bound. */
  function GrowthsLeft(reference: nat, bound: nat): nat
    decreases bound - reference
  {
    if NextReference(reference) > bound then 0 else 1 + GrowthsLeft(NextReference(reference), bound)
  }

  lemma {:induction false} FewerGrowthsLeft(low: nat, high: nat, bound: nat)
    requires low <= high
    ensures GrowthsLeft(low, bound) >= GrowthsLeft(high, bound)
    decreases bound - low
  {
    if NextReference(low) <= bound {
      FewerGrowthsLeft(NextReference(low), NextReference(high), bound);
    }
  }

  /** The rounds that the watch can still judge before it declares full bandwidth. */
  function JudgementsLeft(w: Watch, bound: nat): int {
    if w.full then 0 else NUM_STARTUP_RTTS * GrowthsLeft(w.reference, bound) + NUM_STARTUP_RTTS - w.stalled
  }

  /** A judgement that finds neither an estimate nor a reference. */
  predicate Blind(before: Watch, bandwidth: nat) {
    before.reference == 0 && bandwidth == 0
  }

  /** A judgement that is not blind spends one of those left, and a blind one changes nothing. */
  lemma {:induction false} JudgementSpends(before: Watch, after: Watch, bandwidth: nat, heavyLoss: bool, bound: nat)
    requires !before.full && before.stalled < NUM_STARTUP_RTTS && (before.reference == 0 ==> before.stalled == 0)
    requires Judged(before, after, bandwidth, heavyLoss) && bandwidth <= bound && bandwidth % BYTES_PER_SECOND == 0
    ensures after.reference == 0 ==> after.stalled == 0
    ensures if Blind(before, bandwidth) then after == before
            else JudgementsLeft(after, bound) < JudgementsLeft(before, bound)
  {
    hide GrowthTarget;
    GrowthTargetIs(before.reference);
    if bandwidth >= GrowthTarget(before.reference) && bandwidth >= 4 {
      FewerGrowthsLeft(NextReference(before.reference), bandwidth, bound);
    }
  }

  // ---------- Runs ----------

  /** Action i of a run judges the bandwidth. */
  ghost predicate JudgesAt(p: Params, mds: nat, run: seq<Action>, i: nat)
    requires ParamsOk(p) && ValidRun(run)
  {
    i < |run| && run[i].Congestion?
    && Judges(Before(p, mds, run, i).sender, run[i].event.acked, Before(p, mds, run, i + 1).sender)
  }

  /** How many of the first n actions judge the bandwidth. */
  ghost function JudgementCount(p: Params, mds: nat, run: seq<Action>, n: nat): nat
    requires ParamsOk(p) && ValidRun(run) && n <= |run|
  {
    if n == 0 then 0 else JudgementCount(p, mds, run, n - 1) + if JudgesAt(p, mds, run, n - 1) then 1 else 0
  }

  /** Action i judges the bandwidth without an estimate or a reference. */
  ghost predicate BlindAt(p: Params, mds: nat, run: seq<Action>, i: nat)
    requires ParamsOk(p) && ValidRun(run)
  {
    JudgesAt(p, mds, run, i)
    && Blind(WatchOf(Before(p, mds, run, i).sender), Before(p, mds, run, i + 1).filter[0].sample)
  }

  /** How many of the first n actions do. */
  ghost function BlindCount(p: Params, mds: nat, run: seq<Action>, n: nat): nat
    requires ParamsOk(p) && ValidRun(run) && n <= |run|
  {
    if n == 0 then 0 else BlindCount(p, mds, run, n - 1) + if BlindAt(p, mds, run, n - 1) then 1 else 0
  }

  /** Whenever the bandwidth is judged, the estimate does not exceed the bound. */
  ghost predicate EstimatesWithin(p: Params, mds: nat, run: seq<Action>, bound: nat)
    requires ParamsOk(p) && ValidRun(run)
  {
    forall i: nat :: JudgesAt(p, mds, run, i) ==> Before(p, mds, run, i + 1).filter[0].sample <= bound
  }

  /** Without a reference, no round has stalled. */
  ghost predicate FreshStart(w: Watch) {
    w.reference == 0 ==> w.stalled == 0
  }

  lemma {:induction false} StepSpends(p: Params, mds: nat, run: seq<Action>, i: nat, bound: nat)
    requires ParamsOk(p) && ValidRun(run) && i < |run| && EstimatesWithin(p, mds, run, bound)
    requires FreshStart(WatchOf(Before(p, mds, run, i).sender))
    ensures var before, after := WatchOf(Before(p, mds, run, i).sender), WatchOf(Before(p, mds, run, i + 1).sender);
            && FreshStart(after)
            && JudgementsLeft(after, bound)
               <= JudgementsLeft(before, bound) - if JudgesAt(p, mds, run, i) && !BlindAt(p, mds, run, i) then 1 else 0
  {
    hide Before, OnCongestionEvent, WellFormed, Judged, GrowthsLeft, StartsRound, HeavyLossBy;
    BeforeStep(p, mds, run, i);
    var k, k' := Before(p, mds, run, i), Before(p, mds, run, i + 1);
    if run[i].Congestion? {
      assert NonEmpty(run[i].event);
      EventJudges(p, k, run[i].event);
      if JudgesAt(p, mds, run, i) {
        assert k'.filter[0].sample % BYTES_PER_SECOND == 0;
        JudgementSpends(WatchOf(k.sender), WatchOf(k'.sender), k'.filter[0].sample,
                        HeavyLossBy(p, k, run[i].event), bound);
      }
    }
  }

  lemma {:induction false} JudgementsAreSpent(p: Params, mds: nat, run: seq<Action>, n: nat, bound: nat)
    requires ParamsOk(p) && ValidRun(run) && n <= |run| && EstimatesWithin(p, mds, run, bound)
    ensures FreshStart(WatchOf(Before(p, mds, run, n).sender))
    ensures JudgementCount(p, mds, run, n) + JudgementsLeft(WatchOf(Before(p, mds, run, n).sender), bound)
         <= JudgementsLeft(Watch(false, 0, 0), bound) + BlindCount(p, mds, run, n)
  {
    hide JudgementsLeft, EstimatesWithin, JudgesAt, Blind;
    if n == 0 {
      assert run[..0] == [];
    } else {
      hide Before, FreshStart;
      JudgementsAreSpent(p, mds, run, n - 1, bound);
      StepSpends(p, mds, run, n - 1, bound);
    }
  }

  function Pow2(n: nat): nat {
    if n == 0 then 1 else 2 * Pow2(n - 1)
  }

  /** Four growths at least double the reference. */
  lemma {:induction false} FourGrowthsDouble(r: nat)
    requires r >= 4
    ensures NextReference(NextReference(NextReference(NextReference(r)))) >= 2 * r
  {
  }

  lemma {:induction false} HalvePower(n: nat, x: nat, y: nat)
    requires n > 0 && y >= 2 * x
    ensures Pow2(n - 1) * y >= Pow2(n) * x
  {
    assert Pow2(n - 1) * y >= Pow2(n - 1) * (2 * x);
  }

  lemma {:induction false} GrowthsAreLogarithmic(reference: nat, bound: nat, n: nat)
    requires reference >= 4 && Pow2(n) * reference > bound
    ensures GrowthsLeft(reference, bound) <= 4 * n
    decreases n
  {
    hide NextReference;
    if n > 0 && NextReference(reference) <= bound {
      var r1 := NextReference(reference);
      var r2 := NextReference(r1);
      var r3 := NextReference(r2);
      var r4 := NextReference(r3);
      FourGrowthsDouble(reference);
      HalvePower(n, reference, r4);
      GrowthsAreLogarithmic(r4, bound, n - 1);
      FewerGrowthsLeft(r1, r2, bound);
      FewerGrowthsLeft(r2, r3, bound);
      assert GrowthsLeft(reference, bound) == 1 + GrowthsLeft(r1, bound);
      assert GrowthsLeft(r1, bound) <= 1 + GrowthsLeft(r2, bound);
      assert GrowthsLeft(r2, bound) <= 1 + GrowthsLeft(r3, bound);
      assert GrowthsLeft(r3, bound) <= 1 + GrowthsLeft(r4, bound);
    }
  }

  /**
   STARTUP terminates: as long as the judged estimates stay below 4 * 2^n bits per second, a run
   judges the bandwidth at most 12 n + 6 times before it is declared full, not counting the
   judgements that find neither an estimate nor a reference.
   */
  lemma {:induction false} StartupTerminates(p: Params, mds: nat, run: seq<Action>, bound: nat, n: nat)
    requires ParamsOk(p) && ValidRun(run) && EstimatesWithin(p, mds, run, bound)
    requires bound < 4 * Pow2(n)
    ensures JudgementCount(p, mds, run, |run|) <= 12 * n + 6 + BlindCount(p, mds, run, |run|)
    ensures JudgementCount(p, mds, run, |run|) == 12 * n + 6 + BlindCount(p, mds, run, |run|) ==>
              Run(p, mds, run).sender.isAtFullBandwidth
  {
    JudgementsAreSpent(p, mds, run, |run|, bound);
    assert run[..|run|] == run;
    GrowthsAreLogarithmic(4, bound, n);
    assert GrowthsLeft(0, bound) <= 1 + GrowthsLeft(4, bound);
    assert Before(p, mds, run, |run|) == Run(p, mds, run);
  }

  // ---------- The verdict, exactly ----------

  /** Action i judges the bandwidth, and finds less than five fourths of the reference. */
  ghost predicate StallsAt(p: Params, mds: nat, run: seq<Action>, i: nat)
    requires ParamsOk(p) && ValidRun(run)
  {
    JudgesAt(p, mds, run, i)
    && Before(p, mds, run, i + 1).filter[0].sample < 5 * Before(p, mds, run, i).sender.bandwidthAtLastRound / 4
  }

  /** How many of the latest judgements among the first n actions stalled, one after the other. */
  ghost function StallsInARow(p: Params, mds: nat, run: seq<Action>, n: nat): nat
    requires ParamsOk(p) && ValidRun(run) && n <= |run|
  {
    if n == 0 then 0
    else if StallsAt(p, mds, run, n - 1) then StallsInARow(p, mds, run, n - 1) + 1
    else if JudgesAt(p, mds, run, n - 1) then 0
    else StallsInARow(p, mds, run, n - 1)
  }

  /**
   The losses of the round, up to and including action i, are heavy for the flight of the send
   state that the action reports.
   */
  ghost predicate HeavyLossAt(p: Params, mds: nat, run: seq<Action>, i: nat)
    requires ParamsOk(p) && ValidRun(run)
  {
    i < |run| && run[i].Congestion? &&
    HeavyLoss(LossEventsInRound(p, mds, run, i) + if run[i].event.lost != [] then 1 else 0,
              BytesLostInRound(p, mds, run, i) + SumLost(run[i].event.lost),
              SampleAt(p, Before(p, mds, run, i), run[i].event).lastPacketSendState)
  }

  /** What action i does to the watch. */
  lemma {:induction false} ActionJudges(p: Params, mds: nat, run: seq<Action>, i: nat)
    requires ParamsOk(p) && ValidRun(run) && i < |run|
    ensures var w, w' := WatchOf(Before(p, mds, run, i).sender), WatchOf(Before(p, mds, run, i + 1).sender);
            if StallsAt(p, mds, run, i) then
              w'.stalled == w.stalled + 1 && (w'.full <==> w'.stalled >= 3 || HeavyLossAt(p, mds, run, i))
            else if JudgesAt(p, mds, run, i) then !w'.full && w'.stalled == 0
            else w' == w
  {
    hide Before, OnCongestionEvent, WellFormed, StartsRound, HeavyLoss, SumLost, GrowthTarget;
    BeforeStep(p, mds, run, i);
    CountersCount(p, mds, run, i);
    var k := Before(p, mds, run, i);
    if run[i].Congestion? {
      assert NonEmpty(run[i].event);
      EventJudges(p, k, run[i].event);
      GrowthTargetIs(k.sender.bandwidthAtLastRound);
    }
  }

  lemma {:induction false} StallsAreCounted(p: Params, mds: nat, run: seq<Action>, n: nat)
    requires ParamsOk(p) && ValidRun(run) && n <= |run|
    ensures Before(p, mds, run, n).sender.roundsWithoutBandwidthGain == StallsInARow(p, mds, run, n)
    decreases n
  {
    if n == 0 {
      assert run[..0] == [];
    } else {
      hide Before, StallsAt, JudgesAt, HeavyLossAt;
      StallsAreCounted(p, mds, run, n - 1);
      ActionJudges(p, mds, run, n - 1);
    }
  }

  /**
   Full bandwidth is declared by exactly those actions whose judgement stalls for the third time
   in a row, or stalls while the losses of the round are heavy.
   */
  lemma {:induction false} WhenBandwidthIsFull(p: Params, mds: nat, run: seq<Action>, i: nat)
    requires ParamsOk(p) && ValidRun(run) && i < |run|
    requires !Before(p, mds, run, i).sender.isAtFullBandwidth
    ensures Before(p, mds, run, i + 1).sender.isAtFullBandwidth
       <==> StallsAt(p, mds, run, i) && (StallsInARow(p, mds, run, i + 1) >= 3 || HeavyLossAt(p, mds, run, i))
  {
    hide Before, StallsAt, JudgesAt, HeavyLossAt;
    ActionJudges(p, mds, run, i);
    StallsAreCounted(p, mds, run, i + 1);
  }
}
