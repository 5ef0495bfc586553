/**
 The Brutal sender over whole runs of events, sends and changes of the datagram size: the rate
 bound of its pacer, at the bandwidths that exact trailing counts give
 (hysteria/congestion/brutal.go:42-156, hysteria/congestion/pacer.go:32-58).
 */
module BrutalTraces {
  import opened Arithmetic
  import opened Pacers
  import opened Brutals

  datatype Action = Observe(event: Event) | Transmit(time: nat, size: nat) | Resize(maxDatagramSize: nat)

  function Apply(bps: nat, s: Brutal, a: Action): (t: Brutal)
    requires MIN_ACK_RATE <= s.ackRate <= 1.0
    ensures MIN_ACK_RATE <= t.ackRate <= 1.0
  {
    match a
    case Observe(e) => Observed(s, e)
    case Transmit(time, size) => Transmitted(bps, s, time, size)
    case Resize(size) => s.(pacer := s.pacer.(maxDatagramSize := size))
  }

  function After(bps: nat, run: seq<Action>): (s: Brutal)
    ensures MIN_ACK_RATE <= s.ackRate <= 1.0
  {
    if run == [] then NEW_SENDER else Apply(bps, After(bps, run[..|run| - 1]), run[|run| - 1])
  }

  function EventsOf(run: seq<Action>): seq<Event> {
    if run == [] then []
    else
      var events, a := EventsOf(run[..|run| - 1]), run[|run| - 1];
      if a.Observe? then events + [a.event] else events
  }

  // ---------- The rate ----------

  /** The ack rate of the last five seconds, counted from all events. */
  function ExactRate(h: seq<Event>): (rate: real)
    ensures MIN_ACK_RATE <= rate <= 1.0
  {
    if h == [] then 1.0
    else
      var t := h[|h| - 1].second;
      AckRate(AcksIn(h, t - 4, t), LossesIn(h, t - 4, t))
  }

  lemma {:induction false} SlotsFollow(bps: nat, run: seq<Action>)
    ensures After(bps, run).slots == Brutals.Run(EventsOf(run))
  {
    hide Counted;
    if run != [] {
      var events, a := EventsOf(run[..|run| - 1]), run[|run| - 1];
      SlotsFollow(bps, run[..|run| - 1]);
      assert (events + [if a.Observe? then a.event else Event(0, 0, 0)])[..|events|] == events;
    }
  }

  /** In every run the ack rate in use is that of the events of the last five seconds. */
  lemma {:induction false} RateIsExact(bps: nat, run: seq<Action>)
    requires Brutals.Chronological(EventsOf(run))
    ensures After(bps, run).ackRate == ExactRate(EventsOf(run))
    decreases |run|
  {
    hide Counted, AckRate, Sent, PacerBandwidth;
    if run != [] {
      var init, a := run[..|run| - 1], run[|run| - 1];
      if a.Observe? {
        SlotsFollow(bps, run);
        FiveSlotsAreExact(EventsOf(run));
      } else {
        RateIsExact(bps, init);
      }
    }
  }

  /**
   The rate in use, from the events alone: with at least fifty packets acknowledged or lost in the
   last five seconds it makes their acknowledged share, or three fifths where that is less; with
   fewer it is one.
   */
  lemma {:induction false} RateIsShare(bps: nat, run: seq<Action>)
    requires Brutals.Chronological(EventsOf(run))
    ensures var h, rate := EventsOf(run), After(bps, run).ackRate;
            if h == [] then rate == 1.0
            else
              var t := h[|h| - 1].second;
              IsAckRate(rate, AcksIn(h, t - 4, t), LossesIn(h, t - 4, t))
  {
    hide After, AcksIn, LossesIn, IsAckRate;
    RateIsExact(bps, run);
  }

  /**
   So the bandwidth in use makes up for the losses: of that many bytes, the share acknowledged in
   the last five seconds is the configured rate, to within one byte.
   */
  lemma {:induction false} BandwidthMakesUpForLosses(bps: nat, run: seq<Action>)
    requires Brutals.Chronological(EventsOf(run)) && EventsOf(run) != []
    ensures var h, bandwidth := EventsOf(run), PacerBandwidth(bps, After(bps, run).ackRate);
            var t := h[|h| - 1].second;
            var acks, total := AcksIn(h, t - 4, t), AcksIn(h, t - 4, t) + LossesIn(h, t - 4, t);
            if total < 50 then bandwidth == bps
            else if 5 * acks < 3 * total then 3 * bandwidth <= 5 * bps < 3 * bandwidth + 3
            else bandwidth * acks <= bps * total < (bandwidth + 1) * acks
  {
    hide After, AcksIn, LossesIn;
    RateIsShare(bps, run);
    var h := EventsOf(run);
    var t: int := h[|h| - 1].second;
    SharedBandwidth(bps, After(bps, run).ackRate, AcksIn(h, t - 4, t), LossesIn(h, t - 4, t));
  }

  lemma {:induction false} SharedBandwidth(bps: nat, rate: real, acks: nat, losses: nat)
    requires MIN_ACK_RATE <= rate <= 1.0 && IsAckRate(rate, acks, losses)
    ensures var bandwidth, total := PacerBandwidth(bps, rate), acks + losses;
            if total < 50 then bandwidth == bps
            else if 5 * acks < 3 * total then 3 * bandwidth <= 5 * bps < 3 * bandwidth + 3
            else bandwidth * acks <= bps * total < (bandwidth + 1) * acks
  {
    var bandwidth, total := PacerBandwidth(bps, rate), acks + losses;
    if total >= 50 && 5 * acks >= 3 * total {
      ShareOfBandwidth(rate, acks, total, bandwidth, bps);
      ShareOfBandwidth(rate, acks, total, bandwidth + 1, bps);
    }
  }

  lemma {:induction false} ShareOfBandwidth(rate: real, acks: nat, total: nat, bandwidth: nat, bps: nat)
    requires total > 0 && rate * total as real == acks as real
    ensures rate * bandwidth as real <= bps as real <==> bandwidth * acks <= bps * total
  {
    var slack := bps as real - rate * bandwidth as real;
    assert slack * total as real == (bps * total - bandwidth * acks) as real by {
      assert rate * bandwidth as real * total as real == bandwidth as real * acks as real;
    }
    DivideBy(slack, total as real);
    DivideBy(-slack, total as real);
  }

  // ---------- The sends ----------

  /** The datagram size in force after a run. */
  function SizeAfter(run: seq<Action>): nat {
    if run == [] then INIT_MAX_DATAGRAM_SIZE
    else if run[|run| - 1].Resize? then run[|run| - 1].maxDatagramSize
    else SizeAfter(run[..|run| - 1])
  }

  /** The sends of a run, told from its actions alone: the bandwidth is the configured one over the exact ack rate. */
  function SendsOf(bps: nat, run: seq<Action>): seq<Send> {
    if run == [] then []
    else
      var init, a := run[..|run| - 1], run[|run| - 1];
      if a.Transmit?
      then SendsOf(bps, init) + [Send(a.time, a.size, PacerBandwidth(bps, ExactRate(EventsOf(init))), SizeAfter(init))]
      else SendsOf(bps, init)
  }

  /** Every send of the run passes the check of the pacing budget with at most a full datagram. */
  ghost predicate RespectsBudget(bps: nat, run: seq<Action>) {
    forall i :: 0 <= i < |run| && run[i].Transmit? ==>
      var s := After(bps, run[..i]);
      run[i].size <= s.pacer.maxDatagramSize <= Budget(s.pacer, PacerBandwidth(bps, s.ackRate), run[i].time)
  }

  /** Send times are set and do not go back. */
  ghost predicate SendsForward(run: seq<Action>) {
    && (forall i :: 0 <= i < |run| && run[i].Transmit? ==> run[i].time > UNSET_TIME)
    && (forall i, j :: 0 <= i < j < |run| && run[i].Transmit? && run[j].Transmit? ==> run[i].time <= run[j].time)
  }

  /** The pacer has run on those sends. */
  lemma {:induction false} PacerFollows(bps: nat, run: seq<Action>)
    requires Brutals.Chronological(EventsOf(run))
    ensures After(bps, run).pacer == Pacers.Run(INITIAL, SendsOf(bps, run)).(maxDatagramSize := SizeAfter(run))
    decreases |run|
  {
    hide Sent, PacerBandwidth, Counted;
    if run != [] {
      var init, a := run[..|run| - 1], run[|run| - 1];
      EventsForward(run);
      PacerFollows(bps, init);
      RateIsExact(bps, init);
      var sends, longer := SendsOf(bps, init), SendsOf(bps, run);
      if a.Transmit? {
        assert longer[..|longer| - 1] == sends;
        SameSize(After(bps, init).pacer, PacerBandwidth(bps, ExactRate(EventsOf(init))), a.time, a.size);
      }
    }
  }

  lemma {:induction false} SameSize(s: Pacers.State, bandwidth: nat, time: nat, size: nat)
    ensures Sent(s, bandwidth, time, size).maxDatagramSize == s.maxDatagramSize
  {
  }

  lemma {:induction false} EventsForward(run: seq<Action>)
    requires run != [] && Brutals.Chronological(EventsOf(run))
    ensures Brutals.Chronological(EventsOf(run[..|run| - 1]))
  {
    var events := EventsOf(run[..|run| - 1]);
    assert events == EventsOf(run)[..|events|];
  }

  /** Each send is some action of the run. */
  lemma {:induction false} SendIsAction(bps: nat, run: seq<Action>, i: nat) returns (a: nat)
    requires i < |SendsOf(bps, run)|
    ensures a < |run| && run[a].Transmit? && run[a].time == SendsOf(bps, run)[i].time
    ensures SendsOf(bps, run[..a + 1]) == SendsOf(bps, run)[..i + 1] && |SendsOf(bps, run[..a])| == i
    decreases |run|
  {
    hide PacerBandwidth, ExactRate;
    var init := run[..|run| - 1];
    if i == |SendsOf(bps, init)| {
      a := |run| - 1;
      assert run[..a + 1] == run;
    } else {
      a := SendIsAction(bps, init, i);
      assert init[..a + 1] == run[..a + 1] && init[..a] == run[..a];
    }
  }

  lemma {:induction false} SendsAreForward(bps: nat, run: seq<Action>)
    requires SendsForward(run)
    ensures Pacers.Chronological(INITIAL, SendsOf(bps, run))
  {
    hide PacerBandwidth, ExactRate;
    if run != [] {
      var init, a := run[..|run| - 1], run[|run| - 1];
      SendsAreForward(bps, init);
      if a.Transmit? {
        var sends := SendsOf(bps, init);
        forall i | 0 <= i < |sends| ensures sends[i].time <= a.time {
          var b := SendIsAction(bps, init, i);
        }
      }
    }
  }

  lemma {:induction false} SendsAreGuarded(bps: nat, run: seq<Action>)
    requires Brutals.Chronological(EventsOf(run)) && RespectsBudget(bps, run)
    ensures Guarded(INITIAL, SendsOf(bps, run))
    decreases |run|
  {
    hide PacerBandwidth, Budget, Guarded;
    if run == [] {
      NoSendsGuarded();
    } else {
      var init, a := run[..|run| - 1], run[|run| - 1];
      EventsForward(run);
      BudgetsOfPrefix(bps, run);
      SendsAreGuarded(bps, init);
      if a.Transmit? {
        PacerFollows(bps, init);
        RateIsExact(bps, init);
        GuardedExtends(INITIAL, SendsOf(bps, init), SendsOf(bps, run)[|SendsOf(bps, init)|]);
      }
    }
  }

  lemma {:induction false} NoSendsGuarded()
    ensures Guarded(INITIAL, [])
  {
  }

  lemma {:induction false} BudgetsOfPrefix(bps: nat, run: seq<Action>)
    requires run != [] && RespectsBudget(bps, run)
    ensures RespectsBudget(bps, run[..|run| - 1])
    ensures var init, a := run[..|run| - 1], run[|run| - 1];
            a.Transmit? ==> a.size <= After(bps, init).pacer.maxDatagramSize
                               <= Budget(After(bps, init).pacer, PacerBandwidth(bps, After(bps, init).ackRate), a.time)
  {
    hide PacerBandwidth, Budget, After;
    var init := run[..|run| - 1];
    forall i | 0 <= i < |init| ensures init[..i] == run[..i] {}
  }

  /**
   In every run of a Brutal sender that respects its pacing budget, with sends, events and changes
   of the datagram size in any order, the bytes between any two sends, inclusive, are at most one
   maximum burst plus what the time between the sends earns: at each send, the configured rate
   over the ack rate of all events of the last five seconds.
   */
  lemma {:induction false} SendsAreEarned(bps: nat, run: seq<Action>, i: nat, j: nat)
    requires Brutals.Chronological(EventsOf(run)) && SendsForward(run) && RespectsBudget(bps, run)
    requires i <= j < |SendsOf(bps, run)|
    ensures var sends := SendsOf(bps, run);
            SECOND * Bytes(sends, i, j)
            <= SECOND * MaxBurst(sends[i].maxDatagramSize, sends[i].bandwidth) + Allowance(sends, i, j)
  {
    SendsAreForward(bps, run);
    SendsAreGuarded(bps, run);
    StretchIsEarned(INITIAL, SendsOf(bps, run), i, j);
  }

  lemma {:induction false} BandwidthsAreBounded(bps: nat, run: seq<Action>)
    ensures forall i :: 0 <= i < |SendsOf(bps, run)| ==> SendsOf(bps, run)[i].bandwidth <= 5 * bps / 3
  {
    if run != [] {
      BandwidthsAreBounded(bps, run[..|run| - 1]);
    }
  }

  /**
   Whatever the losses, that is at most one burst plus five thirds of the configured rate times
   the time between the sends.
   */
  lemma {:induction false} BrutalLongRunRate(bps: nat, run: seq<Action>, i: nat, j: nat)
    requires Brutals.Chronological(EventsOf(run)) && SendsForward(run) && RespectsBudget(bps, run)
    requires i <= j < |SendsOf(bps, run)|
    ensures var sends := SendsOf(bps, run);
            SECOND * Bytes(sends, i, j)
            <= SECOND * MaxBurst(sends[i].maxDatagramSize, 5 * bps / 3) + 5 * bps / 3 * (sends[j].time - sends[i].time)
  {
    hide Pacers.Chronological, Guarded, SendsOf, Bytes, MaxBurst;
    SendsAreForward(bps, run);
    SendsAreGuarded(bps, run);
    BandwidthsAreBounded(bps, run);
    LongRunRate(INITIAL, SendsOf(bps, run), 5 * bps / 3, i, j);
  }
}
