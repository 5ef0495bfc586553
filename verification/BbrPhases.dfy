/**
 The phases of the BBR sender in time: a PROBE_BW drain phase always follows its probing phase,
 and PROBE_RTT lasts for its time and a round (congestion_meta2/bbr_sender.go:613-674, 728-767).
 */
module BbrPhases {
  import opened BandwidthSamplers
  import opened BbrModel
  import opened BbrFrames
  import opened BbrInvariants
  import opened BbrTraces

  /** The part of the sender that runs its phases. */
  datatype Phase = Phase(mode: Mode, offset: nat, exitAt: nat, roundPassed: bool, inFlight: int)

  function PhaseOf(s: Sender): Phase {
    Phase(s.mode, s.cycleCurrentOffset, s.exitProbeRttAt, s.probeRttRoundPassed, s.bytesInFlight)
  }

  /** The exit from PROBE_RTT has just been scheduled, with the flight small enough. */
  ghost predicate Scheduled(p: Params, t: Phase, now: nat) {
    t.exitAt == now + PROBE_RTT_TIME && !t.roundPassed && t.inFlight < p.minWindow + p.maxPacketBufferSize
  }

  /** What one event may do to the phase. */
  ghost predicate PhaseStep(p: Params, s: Phase, t: Phase, now: nat, isRoundStart: bool) {
    // The drain phase of the cycle is entered from the probing phase only.
    && (t.mode == ProbeBw && t.offset == 1 ==> s.mode == ProbeBw && s.offset <= 1)
    // PROBE_RTT is left at its scheduled time, after a round.
    && (s.mode == ProbeRtt && t.mode != ProbeRtt ==>
         s.exitAt != UNSET_TIME && now >= s.exitAt && (s.roundPassed || isRoundStart))
    // In PROBE_RTT the exit is scheduled once.
    && (t.mode == ProbeRtt && s.mode == ProbeRtt && s.exitAt != UNSET_TIME ==>
          t.exitAt == s.exitAt && (t.roundPassed ==> s.roundPassed || isRoundStart))
    && (t.mode == ProbeRtt && (s.mode != ProbeRtt || s.exitAt == UNSET_TIME) ==>
         t.exitAt == UNSET_TIME || Scheduled(p, t, now))
  }

  // ---------- One event ----------

  lemma {:induction false} ExitStartupPhase(p: Params, s: Sender, bandwidth: nat, rttMin: nat, now: nat, draw: nat)
    ensures var t := ExitStartupOrDrain(p, s, bandwidth, rttMin, now, draw);
            PhaseOf(t) == PhaseOf(s).(mode := t.mode, offset := t.cycleCurrentOffset)
            && (s.mode == ProbeBw || s.mode == ProbeRtt ==> t == s)
            && (t.mode == ProbeRtt ==> s.mode == ProbeRtt)
            && (t.mode == ProbeBw && s.mode != ProbeBw ==> t.cycleCurrentOffset != 1)
  {
    hide TargetWindow;
  }

  lemma {:induction false} GainCyclePhase(p: Params, s: Sender, bandwidth: nat, e: Event)
    requires s.mode == ProbeBw && s.cycleCurrentOffset < GAIN_CYCLE_LENGTH
    ensures var t := UpdateGainCycle(p, s, bandwidth, e.rttMin, e.eventTime, e.priorInFlight, e.lost != []);
            PhaseOf(t) == PhaseOf(s).(offset := t.cycleCurrentOffset)
            && (t.cycleCurrentOffset == 1 ==> s.cycleCurrentOffset <= 1)
  {
    hide AdvancesCycle;
  }

  lemma {:induction false} ChangeModesPhase(p: Params, s: Sender, e: Event, bandwidth: nat, last: SendTimeState,
                                            isRoundStart: bool, bytesLost: int)
    requires ModesAgree(s)
    ensures var t := ChangeModes(p, s, e, bandwidth, last, isRoundStart, bytesLost);
            PhaseOf(t) == PhaseOf(s).(mode := t.mode, offset := t.cycleCurrentOffset)
            && (t.mode == ProbeRtt <==> s.mode == ProbeRtt)
            && (t.mode == ProbeBw && t.cycleCurrentOffset == 1 ==> s.mode == ProbeBw && s.cycleCurrentOffset <= 1)
  {
    hide UpdateGainCycle, ExitStartupOrDrain, CheckFullBandwidth;
    var lossy := CountLosses(s, e.lost != [], bytesLost);
    if lossy.mode == ProbeBw {
      GainCyclePhase(p, lossy, bandwidth, e);
    }
    var cycled := if lossy.mode == ProbeBw
                  then UpdateGainCycle(p, lossy, bandwidth, e.rttMin, e.eventTime, e.priorInFlight, e.lost != [])
                  else lossy;
    CheckOnly(cycled, bandwidth, last);
    var checked := Checked(p, s, e, bandwidth, last, isRoundStart, bytesLost);
    ExitStartupPhase(p, checked, bandwidth, e.rttMin, e.eventTime, e.draw);
  }

  lemma {:induction false} ProbeRttPhase(p: Params, s: Sender, now: nat, isRoundStart: bool, minRttExpired: bool,
                                         draw: nat)
    ensures var t := UpdateProbeRtt(p, s, now, isRoundStart, minRttExpired, draw);
            && PhaseStep(p, PhaseOf(s), PhaseOf(t), now, isRoundStart)
            && (t.mode == ProbeBw && s.mode == ProbeBw ==> t.cycleCurrentOffset == s.cycleCurrentOffset)
            && t.bytesInFlight == s.bytesInFlight
  {
  }

  lemma {:induction false} PhaseComposes(p: Params, s: Phase, m: Phase, t: Phase, now: nat, isRoundStart: bool)
    requires m == s.(mode := m.mode, offset := m.offset, inFlight := m.inFlight)
    requires m.mode == ProbeRtt <==> s.mode == ProbeRtt
    requires m.mode == ProbeBw && m.offset == 1 ==> s.mode == ProbeBw && s.offset <= 1
    requires PhaseStep(p, m, t, now, isRoundStart) && (t.mode == ProbeBw && m.mode == ProbeBw ==> t.offset == m.offset)
    ensures PhaseStep(p, s, t, now, isRoundStart)
  {
  }

  /** Every event takes one step of the phases. */
  lemma {:induction false} EventTakesPhaseStep(p: Params, k: Stack, e: Event)
    requires ParamsOk(p) && Invariant(p, k) && NonEmpty(e)
    ensures PhaseStep(p, PhaseOf(k.sender), PhaseOf(OnCongestionEvent(p, k, e).sender),
                      e.eventTime, StartsRound(k.sender, e.acked))
  {
    hide Account, Learn, ChangeModes, UpdateProbeRtt, Recalculate, Filtered, SampledEvent, MinRttExpired, ResetLosses,
         StartsRound, WellFormed, ModesAgreeMidEvent, WindowsOkMidEvent, WholeBytes, OnCongestionEvent, PhaseStep;
    var d := EventIsItsSteps(p, k, e);
    var isRoundStart := StartsRound(k.sender, e.acked);
    AccountKeeps(p, k.sender, e);
    AccountOnly(k.sender, e);
    LearnKeeps(d.accounted, d.sample, e.eventTime);
    LearnOnly(d.accounted, d.sample, e.eventTime);
    ChangeModesPhase(p, d.learned, e, d.bandwidth, d.sample.lastPacketSendState, isRoundStart, d.bytesLost);
    ProbeRttPhase(p, d.changed, e.eventTime, isRoundStart, d.minRttExpired, e.draw);
    LimitsOnly(p, d.probed, e, d.bandwidth, d.bytesAcked, d.totalBytesAcked, d.bytesLost);
    ResetOnly(d.recalculated, isRoundStart);
    PhaseComposes(p, PhaseOf(k.sender), PhaseOf(d.changed), PhaseOf(d.probed), e.eventTime, isRoundStart);
  }

  // ---------- Runs ----------

  function PhaseBefore(p: Params, mds: nat, run: seq<Action>, i: nat): Phase
    requires ParamsOk(p) && ValidRun(run) && i <= |run|
  {
    PhaseOf(Before(p, mds, run, i).sender)
  }

  lemma {:induction false} ActionPhase(p: Params, mds: nat, run: seq<Action>, i: nat)
    requires ParamsOk(p) && ValidRun(run) && i < |run|
    ensures var s, t := PhaseBefore(p, mds, run, i), PhaseBefore(p, mds, run, i + 1);
            if run[i].Congestion? then PhaseStep(p, s, t, run[i].event.eventTime, RoundStartsAt(p, mds, run, i))
            else t == s.(inFlight := t.inFlight)
  {
    hide OnCongestionEvent, WellFormed, Before, PhaseStep, StartsRound;
    BeforeStep(p, mds, run, i);
    if run[i].Congestion? {
      assert NonEmpty(run[i].event);
      EventTakesPhaseStep(p, Before(p, mds, run, i), run[i].event);
    }
  }

  /** In PROBE_BW, the drain phase (gain 0.75) is reached only from the probing phase (gain 1.25) before it. */
  lemma {:induction false} DrainFollowsProbing(p: Params, mds: nat, run: seq<Action>, i: nat)
    requires ParamsOk(p) && ValidRun(run) && i < |run|
    requires Before(p, mds, run, i + 1).sender.mode == ProbeBw && Before(p, mds, run, i + 1).sender.pacingGain < 1.0
    ensures var s := Before(p, mds, run, i).sender;
            s.mode == ProbeBw && s.pacingGain in {0.75, 1.25}
  {
    hide Before, GainAt, WindowsOk, MarkersSent, WellFormed, WholeBytes;
    ActionPhase(p, mds, run, i);
    GainIsLow(Before(p, mds, run, i + 1).sender.cycleCurrentOffset);
    GainIsLow(Before(p, mds, run, i).sender.cycleCurrentOffset);
  }

  lemma {:induction false} GainIsLow(offset: nat)
    requires offset < GAIN_CYCLE_LENGTH
    ensures GainAt(offset) < 1.0 <==> offset == 1
    ensures offset <= 1 ==> GainAt(offset) in {0.75, 1.25}
  {
  }

  /** Action j schedules the exit from the PROBE_RTT that action n finds running. */
  ghost predicate SchedulesExit(p: Params, mds: nat, run: seq<Action>, j: nat, n: nat)
    requires ParamsOk(p) && ValidRun(run) && n <= |run|
  {
    && j < n && run[j].Congestion?
    && PhaseBefore(p, mds, run, n).exitAt == run[j].event.eventTime + PROBE_RTT_TIME
    && PhaseBefore(p, mds, run, j + 1).inFlight < p.minWindow + p.maxPacketBufferSize
    && (forall k :: j < k <= n ==> PhaseBefore(p, mds, run, k).mode == ProbeRtt)
    && (PhaseBefore(p, mds, run, n).roundPassed ==> exists k :: j < k < n && RoundStartsAt(p, mds, run, k))
  }

  lemma {:induction false} StartsUnscheduled(p: Params, mds: nat, run: seq<Action>)
    requires ParamsOk(p) && ValidRun(run)
    ensures PhaseBefore(p, mds, run, 0).mode == Startup
  {
    assert run[..0] == [];
  }

  /** A schedule carries over to the next action, if PROBE_RTT goes on. */
  lemma {:induction false} ScheduleCarriesOver(p: Params, mds: nat, run: seq<Action>, j: nat, n: nat)
    requires ParamsOk(p) && ValidRun(run) && n < |run| && SchedulesExit(p, mds, run, j, n)
    requires PhaseBefore(p, mds, run, n + 1).mode == ProbeRtt
    ensures SchedulesExit(p, mds, run, j, n + 1)
  {
    hide PhaseBefore, RoundStartsAt, ValidRun;
    ActionPhase(p, mds, run, n);
    if PhaseBefore(p, mds, run, n + 1).roundPassed && !PhaseBefore(p, mds, run, n).roundPassed {
      assert RoundStartsAt(p, mds, run, n);
    }
  }

  lemma {:induction false} ExitWasScheduled(p: Params, mds: nat, run: seq<Action>, n: nat) returns (j: nat)
    requires ParamsOk(p) && ValidRun(run) && n <= |run|
    requires PhaseBefore(p, mds, run, n).mode == ProbeRtt && PhaseBefore(p, mds, run, n).exitAt != UNSET_TIME
    ensures SchedulesExit(p, mds, run, j, n)
    decreases n
  {
    hide PhaseBefore, RoundStartsAt, ValidRun;
    StartsUnscheduled(p, mds, run);
    ActionPhase(p, mds, run, n - 1);
    var s := PhaseBefore(p, mds, run, n - 1);
    if s.mode == ProbeRtt && s.exitAt != UNSET_TIME {
      hide SchedulesExit;
      j := ExitWasScheduled(p, mds, run, n - 1);
      ScheduleCarriesOver(p, mds, run, j, n - 1);
    } else {
      j := n - 1;
    }
  }

  /**
   PROBE_RTT lasts: when it ends, the flight had come down to the minimum window and a packet
   at least 200 milliseconds before, and a round has started since.
   */
  lemma {:induction false} ProbeRttLasts(p: Params, mds: nat, run: seq<Action>, i: nat) returns (j: nat, k: nat)
    requires ParamsOk(p) && ValidRun(run) && i < |run|
    requires Before(p, mds, run, i).sender.mode == ProbeRtt && Before(p, mds, run, i + 1).sender.mode != ProbeRtt
    ensures j < k <= i && run[i].Congestion? && run[j].Congestion?
    ensures run[i].event.eventTime >= run[j].event.eventTime + PROBE_RTT_TIME
    ensures Before(p, mds, run, j + 1).sender.bytesInFlight < p.minWindow + p.maxPacketBufferSize
    ensures RoundStartsAt(p, mds, run, k)
    ensures forall n :: j < n <= i ==> Before(p, mds, run, n).sender.mode == ProbeRtt
  {
    hide Before, RoundStartsAt;
    ActionPhase(p, mds, run, i);
    j := ExitWasScheduled(p, mds, run, i);
    if PhaseBefore(p, mds, run, i).roundPassed {
      k :| j < k < i && RoundStartsAt(p, mds, run, k);
    } else {
      k := i;
    }
    forall n | j < n <= i ensures Before(p, mds, run, n).sender.mode == ProbeRtt {
      assert PhaseBefore(p, mds, run, n).mode == ProbeRtt;
    }
  }
}
