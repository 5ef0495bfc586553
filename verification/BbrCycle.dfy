/**
 The gain cycle of the BBR sender's PROBE_BW mode: exactly when a phase ends, and how long each
 phase lasts in a run (congestion_meta2/bbr_sender.go:613-674).
 */
module BbrCycle {
  import opened BandwidthSamplers
  import opened BbrModel
  import opened BbrTargets
  import opened BbrFrames
  import opened BbrInvariants
  import opened BbrTraces

  const PROBING := 0
  const DRAINING := 1

  /** The part of the sender that runs the cycle. */
  datatype Cycle = Cycle(mode: Mode, offset: nat, start: nat, gain: real)

  function CycleOf(s: Sender): Cycle {
    Cycle(s.mode, s.cycleCurrentOffset, s.lastCycleStart, s.pacingGain)
  }

  // ---------- One event ----------

  /** The phase has lasted for the minimum round trip. */
  predicate Elapsed(s: Sender, t: Sender, e: Event) {
    e.eventTime > s.lastCycleStart + RoundTrip(t, e.rttMin)
  }

  /**
   The end of a phase. Probing takes a round trip, and goes on until losses, or a flight of five
   fourths of the bandwidth-delay product, say that it has reached its aim; draining ends after a
   round trip, or as soon as the flight is down to the product; the others take a round trip.
   */
  predicate PhaseEnds(p: Params, s: Sender, t: Sender, e: Event, bandwidth: nat) {
    if s.cycleCurrentOffset == PROBING then
      Elapsed(s, t, e) && (e.lost != [] || e.priorInFlight >= Aim(p, t, bandwidth, e.rttMin, 1.25))
    else if s.cycleCurrentOffset == DRAINING then
      Elapsed(s, t, e) || t.bytesInFlight <= Aim(p, t, bandwidth, e.rttMin, 1.0)
    else
      Elapsed(s, t, e)
  }

  lemma {:induction false} GainCycleCycle(p: Params, s: Sender, bandwidth: nat, e: Event)
    requires ModesAgree(s) && s.mode == ProbeBw
    ensures var t := UpdateGainCycle(p, s, bandwidth, e.rttMin, e.eventTime, e.priorInFlight, e.lost != []);
            && t.mode == ProbeBw && t.minRtt == s.minRtt && t.bytesInFlight == s.bytesInFlight
            && t.cycleCurrentOffset == (if PhaseEnds(p, s, s, e, bandwidth)
                                        then (s.cycleCurrentOffset + 1) % 8 else s.cycleCurrentOffset)
            && t.lastCycleStart == (if PhaseEnds(p, s, s, e, bandwidth) then e.eventTime else s.lastCycleStart)
  {
    hide TargetWindow, Product, Scale;
    TargetIsAim(p, s, bandwidth, e.rttMin, 1.25);
    TargetIsAim(p, s, bandwidth, e.rttMin, 1.0);
  }

  /** A target depends on the sender's round-trip estimate only. */
  lemma {:induction false} SameTargets(p: Params, s: Sender, s': Sender, t: Sender, t': Sender, e: Event,
                                       bandwidth: nat)
    requires s.cycleCurrentOffset == s'.cycleCurrentOffset && s.lastCycleStart == s'.lastCycleStart
    requires t.minRtt == t'.minRtt && t.bytesInFlight == t'.bytesInFlight
    ensures PhaseEnds(p, s, t, e, bandwidth) == PhaseEnds(p, s', t', e, bandwidth)
  {
    hide Aim, RoundTrip;
    SameAim(p, t, t', bandwidth, e.rttMin, 1.25);
    SameAim(p, t, t', bandwidth, e.rttMin, 1.0);
  }

  /**
   One event's effect on the cycle: PROBE_BW starts its clock on entry, and moves on by one phase
   exactly when the phase ends.
   */
  ghost predicate CycleStep(p: Params, s: Sender, t: Sender, e: Event, bandwidth: nat) {
    t.mode == ProbeBw ==>
      if s.mode != ProbeBw then t.lastCycleStart == e.eventTime
      else if PhaseEnds(p, s, t, e, bandwidth)
      then t.cycleCurrentOffset == (s.cycleCurrentOffset + 1) % 8 && t.lastCycleStart == e.eventTime
      else t.cycleCurrentOffset == s.cycleCurrentOffset && t.lastCycleStart == s.lastCycleStart
  }

  lemma {:induction false} ExitStartupCycle(p: Params, s: Sender, bandwidth: nat, rttMin: nat, now: nat, draw: nat)
    ensures var t := ExitStartupOrDrain(p, s, bandwidth, rttMin, now, draw);
            && (s.mode == ProbeBw ==> t == s)
            && (s.mode != ProbeBw && t.mode == ProbeBw ==> t.lastCycleStart == now)
            && t.minRtt == s.minRtt && t.bytesInFlight == s.bytesInFlight
  {
    hide TargetWindow;
  }

  lemma {:induction false} ChangeModesCycle(p: Params, s: Sender, e: Event, bandwidth: nat, last: SendTimeState,
                                            isRoundStart: bool, bytesLost: int)
    requires ModesAgree(s)
    ensures var t := ChangeModes(p, s, e, bandwidth, last, isRoundStart, bytesLost);
            CycleStep(p, s, t, e, bandwidth) && t.minRtt == s.minRtt && t.bytesInFlight == s.bytesInFlight
            && (s.mode == ProbeBw ==> t.mode == ProbeBw)
  {
    hide UpdateGainCycle, CheckFullBandwidth, ExitStartupOrDrain, PhaseEnds;
    var lossy := CountLosses(s, e.lost != [], bytesLost);
    if lossy.mode == ProbeBw {
      assert ModesAgree(lossy);
      GainCycleCycle(p, lossy, bandwidth, e);
    }
    var cycled := if lossy.mode == ProbeBw
                  then UpdateGainCycle(p, lossy, bandwidth, e.rttMin, e.eventTime, e.priorInFlight, e.lost != [])
                  else lossy;
    CheckOnly(cycled, bandwidth, last);
    var checked := Checked(p, s, e, bandwidth, last, isRoundStart, bytesLost);
    ExitStartupCycle(p, checked, bandwidth, e.rttMin, e.eventTime, e.draw);
    SameTargets(p, s, lossy, ChangeModes(p, s, e, bandwidth, last, isRoundStart, bytesLost), lossy, e, bandwidth);
  }

  lemma {:induction false} ProbeRttCycle(p: Params, s: Sender, now: nat, isRoundStart: bool, minRttExpired: bool,
                                         draw: nat)
    ensures var t := UpdateProbeRtt(p, s, now, isRoundStart, minRttExpired, draw);
            && (t.mode == ProbeBw && s.mode == ProbeBw ==> CycleOf(t) == CycleOf(s))
            && (t.mode == ProbeBw && s.mode != ProbeBw ==> t.lastCycleStart == now)
            && t.minRtt == s.minRtt && t.bytesInFlight == s.bytesInFlight
  {
    hide GainAt, CycleOffset;
  }

  lemma {:induction false} EventTakesCycleStep(p: Params, k: Stack, e: Event)
    requires ParamsOk(p) && Invariant(p, k) && NonEmpty(e)
    ensures var k' := OnCongestionEvent(p, k, e); CycleStep(p, k.sender, k'.sender, e, k'.filter[0].sample)
  {
    hide Account, Learn, ChangeModes, UpdateProbeRtt, Recalculate, Filtered, SampledEvent, MinRttExpired, ResetLosses,
         StartsRound, WellFormed, ModesAgreeMidEvent, WindowsOkMidEvent, WholeBytes, OnCongestionEvent, PhaseEnds;
    var d := EventIsItsSteps(p, k, e);
    var isRoundStart := StartsRound(k.sender, e.acked);
    AccountKeeps(p, k.sender, e);
    AccountOnly(k.sender, e);
    LearnKeeps(d.accounted, d.sample, e.eventTime);
    LearnOnly(d.accounted, d.sample, e.eventTime);
    ChangeModesCycle(p, d.learned, e, d.bandwidth, d.sample.lastPacketSendState, isRoundStart, d.bytesLost);
    ProbeRttCycle(p, d.changed, e.eventTime, isRoundStart, d.minRttExpired, e.draw);
    LimitsOnly(p, d.probed, e, d.bandwidth, d.bytesAcked, d.totalBytesAcked, d.bytesLost);
    ResetOnly(d.recalculated, isRoundStart);
    SameTargets(p, k.sender, d.learned, OnCongestionEvent(p, k, e).sender, d.changed, e, d.bandwidth);
  }

  // ---------- Runs ----------

  function CycleBefore(p: Params, mds: nat, run: seq<Action>, i: nat): Cycle
    requires ParamsOk(p) && ValidRun(run) && i <= |run|
  {
    CycleOf(Before(p, mds, run, i).sender)
  }

  /** Action i is an event that ends a phase of PROBE_BW, by the rule above. */
  ghost predicate PhaseEndsAt(p: Params, mds: nat, run: seq<Action>, i: nat)
    requires ParamsOk(p) && ValidRun(run)
  {
    i < |run| && run[i].Congestion?
    && PhaseEnds(p, Before(p, mds, run, i).sender, Before(p, mds, run, i + 1).sender, run[i].event,
                 Before(p, mds, run, i + 1).filter[0].sample)
  }

  lemma {:induction false} ActionCycles(p: Params, mds: nat, run: seq<Action>, i: nat)
    requires ParamsOk(p) && ValidRun(run) && i < |run|
    ensures var s, t := CycleBefore(p, mds, run, i), CycleBefore(p, mds, run, i + 1);
            t.mode == ProbeBw ==>
              if s.mode != ProbeBw then run[i].Congestion? && t.start == run[i].event.eventTime
              else if PhaseEndsAt(p, mds, run, i)
              then t.offset == (s.offset + 1) % 8 && t.start == run[i].event.eventTime
              else t.offset == s.offset && t.start == s.start
  {
    hide OnCongestionEvent, WellFormed, Before, PhaseEnds;
    BeforeStep(p, mds, run, i);
    if run[i].Congestion? {
      assert NonEmpty(run[i].event);
      EventTakesCycleStep(p, Before(p, mds, run, i), run[i].event);
    }
  }

  /** Action i starts the phase that action n finds running. */
  ghost predicate StartedBy(p: Params, mds: nat, run: seq<Action>, i: nat, n: nat)
    requires ParamsOk(p) && ValidRun(run) && n <= |run|
  {
    && i < n && run[i].Congestion? && CycleBefore(p, mds, run, n).start == run[i].event.eventTime
    && (CycleBefore(p, mds, run, i).mode != ProbeBw || PhaseEndsAt(p, mds, run, i))
    && (forall k :: i < k <= n ==> CycleBefore(p, mds, run, k).mode == ProbeBw)
    && (forall k :: i < k <= n ==> CycleBefore(p, mds, run, k).offset == CycleBefore(p, mds, run, n).offset)
  }

  lemma {:induction false} PhaseWasStarted(p: Params, mds: nat, run: seq<Action>, n: nat) returns (i: nat)
    requires ParamsOk(p) && ValidRun(run) && n <= |run| && CycleBefore(p, mds, run, n).mode == ProbeBw
    ensures StartedBy(p, mds, run, i, n)
    decreases n
  {
    hide CycleBefore, PhaseEndsAt, ValidRun;
    StartsOutside(p, mds, run);
    ActionCycles(p, mds, run, n - 1);
    if CycleBefore(p, mds, run, n - 1).mode == ProbeBw && !PhaseEndsAt(p, mds, run, n - 1) {
      i := PhaseWasStarted(p, mds, run, n - 1);
    } else {
      i := n - 1;
      EndsOnEvents(p, mds, run, i);
    }
  }

  lemma {:induction false} StartsOutside(p: Params, mds: nat, run: seq<Action>)
    requires ParamsOk(p) && ValidRun(run)
    ensures CycleBefore(p, mds, run, 0).mode == Startup
  {
    assert run[..0] == [];
  }

  lemma {:induction false} EndsOnEvents(p: Params, mds: nat, run: seq<Action>, i: nat)
    requires ParamsOk(p) && ValidRun(run)
    ensures PhaseEndsAt(p, mds, run, i) ==> run[i].Congestion?
  {
  }

  /**
   How long a phase lasts: when an event moves PROBE_BW on from the phase that action i started,
   more than a minimum round trip has passed, unless the phase is the drain phase and its flight
   has come down to the bandwidth-delay product; and the probing phase has met losses or reached
   a flight of five fourths of the product.
   */
  lemma {:induction false} GainPhaseLasts(p: Params, mds: nat, run: seq<Action>, j: nat) returns (i: nat)
    requires ParamsOk(p) && ValidRun(run) && j < |run|
    requires CycleBefore(p, mds, run, j).mode == ProbeBw == CycleBefore(p, mds, run, j + 1).mode
    requires CycleBefore(p, mds, run, j).offset != CycleBefore(p, mds, run, j + 1).offset
    ensures StartedBy(p, mds, run, i, j) && run[j].Congestion?
    ensures var s, k, e := CycleBefore(p, mds, run, j), Before(p, mds, run, j + 1), run[j].event;
            var target := (gain: real) => Aim(p, k.sender, k.filter[0].sample, e.rttMin, gain);
            && (e.eventTime > run[i].event.eventTime + RoundTrip(k.sender, e.rttMin)
                || (s.offset == DRAINING && k.sender.bytesInFlight <= target(1.0)))
            && (s.offset == PROBING ==> e.lost != [] || e.priorInFlight >= target(1.25))
  {
    hide Before, ValidRun, Aim, RoundTrip;
    ActionCycles(p, mds, run, j);
    i := PhaseWasStarted(p, mds, run, j);
  }
}
