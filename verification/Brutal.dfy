/**
 The Brutal sender of hysteria/congestion/brutal.go: five slots of ack and loss counts, one
 per second, the rate they give, and the bandwidth the sender's pacer is run at. Seconds are
 Unix time, and rates are exact reals.
 */
module Brutals {
  import opened Arithmetic
  import opened Pacers

  const SLOT_COUNT := 5
  const MIN_SAMPLE_COUNT := 50
  const MIN_ACK_RATE := 0.6

  datatype PktInfo = PktInfo(timestamp: nat, ackCount: nat, lossCount: nat)

  /** One congestion event: its second, and how many packets it acknowledges and loses. */
  datatype Event = Event(second: nat, acks: nat, losses: nat)

  type Slots = s: seq<PktInfo> | |s| == SLOT_COUNT
    witness [PktInfo(0, 0, 0), PktInfo(0, 0, 0), PktInfo(0, 0, 0), PktInfo(0, 0, 0), PktInfo(0, 0, 0)]

  const NO_SLOTS: Slots := [PktInfo(0, 0, 0), PktInfo(0, 0, 0), PktInfo(0, 0, 0), PktInfo(0, 0, 0), PktInfo(0, 0, 0)]

  function Counted(slots: Slots, e: Event): Slots {
    var slot := slots[e.second % SLOT_COUNT];
    slots[e.second % SLOT_COUNT :=
      if slot.timestamp == e.second
      then slot.(ackCount := slot.ackCount + e.acks, lossCount := slot.lossCount + e.losses)
      else PktInfo(e.second, e.acks, e.losses)]
  }

  /** A slot's acks, unless it is older than the given second. */
  function AcksSince(slot: PktInfo, oldest: int): nat {
    if slot.timestamp < oldest then 0 else slot.ackCount
  }

  function LossesSince(slot: PktInfo, oldest: int): nat {
    if slot.timestamp < oldest then 0 else slot.lossCount
  }

  /** The acks in the first n slots that are not older than the given second. */
  function SlotAcks(slots: Slots, oldest: int, n: nat): nat
    requires n <= SLOT_COUNT
  {
    if n == 0 then 0
    else SlotAcks(slots, oldest, n - 1) + AcksSince(slots[n - 1], oldest)
  }

  function SlotLosses(slots: Slots, oldest: int, n: nat): nat
    requires n <= SLOT_COUNT
  {
    if n == 0 then 0
    else SlotLosses(slots, oldest, n - 1) + LossesSince(slots[n - 1], oldest)
  }

  /** The acknowledged share of the packets: one for too few of them, and at least three fifths. */
  ghost predicate IsAckRate(rate: real, acks: nat, losses: nat) {
    if acks + losses < 50 then rate == 1.0
    else if 5 * acks < 3 * (acks + losses) then rate == 0.6
    else rate * (acks + losses) as real == acks as real
  }

  function AckRate(acks: nat, losses: nat): (rate: real)
    ensures MIN_ACK_RATE <= rate <= 1.0 && IsAckRate(rate, acks, losses)
  {
    if acks + losses < MIN_SAMPLE_COUNT then 1.0
    else
      var rate := acks as real / (acks + losses) as real;
      ShareOf(acks, acks + losses);
      if rate < MIN_ACK_RATE then MIN_ACK_RATE else rate
  }

  lemma {:induction false} ShareOf(part: nat, total: nat)
    requires part <= total && total > 0
    ensures var share := part as real / total as real;
            share * total as real == part as real && share <= 1.0 && (share < 0.6 <==> 5 * part < 3 * total)
  {
    var share := part as real / total as real;
    DivideBy(1.0 - share, total as real);
    DivideBy(share - 0.6, total as real);
    DivideBy(0.6 - share, total as real);
    assert (share - 0.6) * total as real == part as real - 0.6 * total as real;
    assert (0.6 - share) * total as real == 0.6 * total as real - part as real;
    assert (1.0 - share) * total as real == total as real - part as real;
  }

  /** The pacer's bandwidth: the configured one, scaled up for the losses. */
  function PacerBandwidth(bps: nat, ackRate: real): (bandwidth: nat)
    requires MIN_ACK_RATE <= ackRate <= 1.0
    ensures bps <= bandwidth && 3 * bandwidth <= 5 * bps
    ensures ackRate * bandwidth as real <= bps as real < ackRate * (bandwidth + 1) as real
  {
    OverRate(bps as real, ackRate);
    QuotientFloor(bps as real, ackRate);
    Trunc(bps as real / ackRate)
  }

  /** Dividing by a rate between three fifths and one scales up by at most five thirds. */
  lemma {:induction false} OverRate(b: real, rate: real)
    requires MIN_ACK_RATE <= rate <= 1.0 && b >= 0.0
    ensures b <= b / rate && 3.0 * (b / rate) <= 5.0 * b
  {
    var x := b / rate;
    assert x * rate == b;
    DivideBy(x, rate);
    ProductNonNegative(x, rate - 0.6);
    ProductNonNegative(x, 1.0 - rate);
    assert x * (rate - 0.6) == b - 0.6 * x;
    assert x * (1.0 - rate) == x - b;
  }

  lemma {:induction false} QuotientFloor(b: real, rate: real)
    requires rate > 0.0 && b >= 0.0
    ensures var q := (b / rate).Floor; rate * q as real <= b < rate * (q + 1) as real
  {
    var x := b / rate;
    var q := x.Floor;
    assert x * rate == b;
    ProductNonNegative(x - q as real, rate);
    ProductPositive((q + 1) as real - x, rate);
  }

  lemma {:induction false} ProductPositive(a: real, b: real)
    requires a > 0.0 && b > 0.0
    ensures a * b > 0.0
  {
  }

  lemma {:induction false} ProductNonNegative(a: real, b: real)
    requires a >= 0.0 && b >= 0.0
    ensures a * b >= 0.0
  {
  }

  /** The sender's state: its slots, the rate they last gave, and its pacer. */
  datatype Brutal = Brutal(slots: Slots, ackRate: real, pacer: State)

  const NEW_SENDER := Brutal(NO_SLOTS, 1.0, INITIAL)

  /** The rate that the slots not older than five seconds give. */
  function RateOfSlots(slots: Slots, second: nat): (rate: real)
    ensures MIN_ACK_RATE <= rate <= 1.0
  {
    AckRate(SlotAcks(slots, second - SLOT_COUNT, SLOT_COUNT), SlotLosses(slots, second - SLOT_COUNT, SLOT_COUNT))
  }

  function Observed(s: Brutal, e: Event): Brutal {
    s.(slots := Counted(s.slots, e), ackRate := RateOfSlots(Counted(s.slots, e), e.second))
  }

  function Transmitted(bps: nat, s: Brutal, time: nat, size: nat): Brutal
    requires MIN_ACK_RATE <= s.ackRate <= 1.0
  {
    s.(pacer := Sent(s.pacer, PacerBandwidth(bps, s.ackRate), time, size))
  }

  class BrutalSender {
    const bps: nat
    const pacer: Pacer
    var maxDatagramSize: nat
    var pktInfoSlots: array<PktInfo>
    var ackRate: real

    ghost predicate Valid()
      reads this, pacer
    {
      pktInfoSlots.Length == SLOT_COUNT && MIN_ACK_RATE <= ackRate <= 1.0 && pacer.maxDatagramSize == maxDatagramSize
    }

    ghost function Slots(): Slots
      requires Valid()
      reads this, pacer, pktInfoSlots
    {
      pktInfoSlots[..]
    }

    ghost function Model(): Brutal
      requires Valid()
      reads this, pacer, pktInfoSlots
    {
      Brutal(Slots(), ackRate, pacer.Model())
    }

    constructor (bps: nat)
      ensures Valid() && fresh(pktInfoSlots) && fresh(pacer)
      ensures Model() == NEW_SENDER && this.bps == bps
    {
      this.bps := bps;
      pacer := new Pacer();
      maxDatagramSize := INIT_MAX_DATAGRAM_SIZE;
      pktInfoSlots := new PktInfo[SLOT_COUNT](_ => PktInfo(0, 0, 0));
      ackRate := 1.0;
    }

    function GetBandwidth(): (bandwidth: nat)
      requires Valid()
      reads this, pacer
      ensures bps <= bandwidth && 3 * bandwidth <= 5 * bps
    {
      PacerBandwidth(bps, ackRate)
    }

    predicate HasPacingBudget(now: nat)
      requires Valid()
      reads this, pacer
      ensures HasPacingBudget(now) <==> Budget(pacer.Model(), GetBandwidth(), now) >= pacer.Model().maxDatagramSize
    {
      pacer.BudgetAt(GetBandwidth(), now) >= maxDatagramSize
    }

    method OnPacketSent(sentTime: nat, bytes: nat)
      requires Valid()
      modifies pacer
      ensures Valid() && Model() == Transmitted(bps, old(Model()), sentTime, bytes)
    {
      pacer.SentPacket(GetBandwidth(), sentTime, bytes);
    }

    method SetMaxDatagramSize(size: nat)
      requires Valid()
      modifies `maxDatagramSize, pacer
      ensures Valid() && maxDatagramSize == size
      ensures Model() == old(Model()).(pacer := old(pacer.Model()).(maxDatagramSize := size))
    {
      maxDatagramSize := size;
      pacer.SetMaxDatagramSize(size);
    }

    method OnCongestionEventEx(e: Event)
      requires Valid()
      modifies `ackRate, pktInfoSlots
      ensures Valid() && Model() == Observed(old(Model()), e)
    {
      var slot := e.second % SLOT_COUNT;
      if pktInfoSlots[slot].timestamp == e.second {
        var info := pktInfoSlots[slot];
        pktInfoSlots[slot] := info.(lossCount := info.lossCount + e.losses, ackCount := info.ackCount + e.acks);
      } else {
        pktInfoSlots[slot] := PktInfo(e.second, e.acks, e.losses);
      }
      UpdateAckRate(e.second);
    }

    method UpdateAckRate(currentTimestamp: nat)
      requires Valid()
      modifies `ackRate
      ensures Valid() && ackRate == RateOfSlots(Slots(), currentTimestamp)
    {
      hide AckRate;
      var minTimestamp := currentTimestamp - SLOT_COUNT;
      var ackCount, lossCount := 0, 0;
      for i := 0 to SLOT_COUNT
        invariant ackCount == SlotAcks(Slots(), minTimestamp, i) && lossCount == SlotLosses(Slots(), minTimestamp, i)
      {
        if pktInfoSlots[i].timestamp < minTimestamp {
          continue;
        }
        ackCount := ackCount + pktInfoSlots[i].ackCount;
        lossCount := lossCount + pktInfoSlots[i].lossCount;
      }
      ackRate := RateOf(ackCount, lossCount);
    }

    /** The choice of the rate from the two totals. */
    method RateOf(ackCount: nat, lossCount: nat) returns (rate: real)
      ensures rate == AckRate(ackCount, lossCount)
    {
      if ackCount + lossCount < MIN_SAMPLE_COUNT {
        return 1.0;
      }
      rate := ackCount as real / (ackCount + lossCount) as real;
      if rate < MIN_ACK_RATE {
        rate := MIN_ACK_RATE;
      }
    }
  }

  // ---------- The slots are an exact trailing count ----------

  ghost predicate Chronological(h: seq<Event>) {
    forall i, j :: 0 <= i < j < |h| ==> h[i].second <= h[j].second
  }

  function Run(h: seq<Event>): Slots {
    if h == [] then NO_SLOTS else Counted(Run(h[..|h| - 1]), h[|h| - 1])
  }

  /** The acks of all events from second `first` to second `last`. */
  function AcksIn(h: seq<Event>, first: int, last: int): nat {
    if h == [] then 0
    else AcksIn(h[..|h| - 1], first, last) + if first <= h[|h| - 1].second <= last then h[|h| - 1].acks else 0
  }

  function LossesIn(h: seq<Event>, first: int, last: int): nat {
    if h == [] then 0
    else LossesIn(h[..|h| - 1], first, last) + if first <= h[|h| - 1].second <= last then h[|h| - 1].losses else 0
  }

  /** A slot counts exactly the events of its own second, and no later event belongs to it. */
  ghost predicate SlotExact(h: seq<Event>, slots: Slots, r: nat)
    requires r < SLOT_COUNT
  {
    var slot := slots[r];
    && (slot.timestamp % SLOT_COUNT == r || (slot.timestamp == 0 && slot.ackCount == 0 && slot.lossCount == 0))
    && (forall i :: 0 <= i < |h| && h[i].second % SLOT_COUNT == r ==> h[i].second <= slot.timestamp)
    && (slot.timestamp % SLOT_COUNT == r ==>
          slot.ackCount == AcksIn(h, slot.timestamp, slot.timestamp)
              && slot.lossCount == LossesIn(h, slot.timestamp, slot.timestamp))
    && (slot.timestamp % SLOT_COUNT != r ==> forall i :: 0 <= i < |h| ==> h[i].second % SLOT_COUNT != r)
    && (h != [] ==> slot.timestamp <= h[|h| - 1].second)
  }

  lemma {:induction false} NoneIn(h: seq<Event>, first: int, last: int)
    requires forall i :: 0 <= i < |h| ==> !(first <= h[i].second <= last)
    ensures AcksIn(h, first, last) == 0 && LossesIn(h, first, last) == 0
  {
    if h != [] {
      NoneIn(h[..|h| - 1], first, last);
    }
  }

  lemma {:induction false} OneMore(h: seq<Event>, e: Event, first: int, last: int)
    ensures AcksIn(h + [e], first, last) == AcksIn(h, first, last) + if first <= e.second <= last then e.acks else 0
    ensures LossesIn(h + [e], first, last)
         == LossesIn(h, first, last) + if first <= e.second <= last then e.losses else 0
  {
    assert (h + [e])[..|h|] == h;
  }

  lemma {:induction false} CountKeepsSlot(h: seq<Event>, slots: Slots, e: Event, r: nat)
    requires r < SLOT_COUNT && SlotExact(h, slots, r)
    requires forall i :: 0 <= i < |h| ==> h[i].second <= e.second
    requires h == [] ==> slots[r].timestamp == 0
    ensures SlotExact(h + [e], Counted(slots, e), r)
  {
    hide AcksIn, LossesIn;
    var slot := slots[r];
    OneMore(h, e, slot.timestamp, slot.timestamp);
    OneMore(h, e, e.second, e.second);
    if e.second % SLOT_COUNT == r && slot.timestamp != e.second {
      forall i | 0 <= i < |h| ensures h[i].second != e.second {
        assert h[i].second % SLOT_COUNT == r ==> h[i].second <= slot.timestamp;
      }
      NoneIn(h, e.second, e.second);
    }
  }

  lemma {:induction false} SlotsExact(h: seq<Event>, r: nat)
    requires Chronological(h) && r < SLOT_COUNT
    ensures SlotExact(h, Run(h), r)
  {
    if h != [] {
      var init, e := h[..|h| - 1], h[|h| - 1];
      SlotsExact(init, r);
      assert h == init + [e];
      CountKeepsSlot(init, Run(init), e, r);
    }
  }

  /** The second among the last five, T included, that slot r stands for. */
  function SecondOf(r: nat, t: nat): int
    requires r < SLOT_COUNT
  {
    t - (t - r) % SLOT_COUNT
  }

  /** A slot contributes the events of the second it stands for. */
  lemma {:induction false} SlotContributes(h: seq<Event>, r: nat)
    requires Chronological(h) && h != [] && r < SLOT_COUNT
    ensures var t, slot := h[|h| - 1].second, Run(h)[r];
            var s := SecondOf(r, t);
            AcksSince(slot, t - SLOT_COUNT) == AcksIn(h, s, s) && LossesSince(slot, t - SLOT_COUNT) == LossesIn(h, s, s)
  {
    hide Run;
    SlotsExact(h, r);
    LastSlot(h);
    var t, slot := h[|h| - 1].second, Run(h)[r];
    var s := SecondOf(r, t);
    if slot.timestamp % SLOT_COUNT != r || slot.timestamp != s {
      StaleSlot(h, Run(h), r);
    }
  }

  /** A slot that does not hold the second it stands for: there was no event in that second. */
  lemma {:induction false} StaleSlot(h: seq<Event>, slots: Slots, r: nat)
    requires Chronological(h) && h != [] && r < SLOT_COUNT && SlotExact(h, slots, r)
    requires slots[h[|h| - 1].second % SLOT_COUNT].timestamp == h[|h| - 1].second
    requires var slot := slots[r]; slot.timestamp % SLOT_COUNT != r || slot.timestamp != SecondOf(r, h[|h| - 1].second)
    ensures var t, slot := h[|h| - 1].second, slots[r];
            var s := SecondOf(r, t);
            && AcksSince(slot, t - SLOT_COUNT) == 0 == AcksIn(h, s, s)
            && LossesSince(slot, t - SLOT_COUNT) == 0 == LossesIn(h, s, s)
  {
    var t, slot := h[|h| - 1].second, slots[r];
    var s := SecondOf(r, t);
    assert s % SLOT_COUNT == r;
    if slot.timestamp % SLOT_COUNT == r {
      assert slot.timestamp <= s - SLOT_COUNT;
      assert r == t % SLOT_COUNT ==> s == t;
    }
    forall i | 0 <= i < |h| ensures h[i].second != s {}
    NoneIn(h, s, s);
  }

  /** The slot of the newest event is up to date. */
  lemma {:induction false} LastSlot(h: seq<Event>)
    requires h != []
    ensures Run(h)[h[|h| - 1].second % SLOT_COUNT].timestamp == h[|h| - 1].second
  {
  }

  /** The five seconds split the window: each event in it is counted for exactly one slot. */
  lemma {:induction false} WindowSplits(h: seq<Event>, t: nat)
    ensures AcksIn(h, t - 4, t)
         == AcksIn(h, SecondOf(0, t), SecondOf(0, t)) + AcksIn(h, SecondOf(1, t), SecondOf(1, t))
          + AcksIn(h, SecondOf(2, t), SecondOf(2, t)) + AcksIn(h, SecondOf(3, t), SecondOf(3, t))
          + AcksIn(h, SecondOf(4, t), SecondOf(4, t))
    ensures LossesIn(h, t - 4, t)
         == LossesIn(h, SecondOf(0, t), SecondOf(0, t)) + LossesIn(h, SecondOf(1, t), SecondOf(1, t))
          + LossesIn(h, SecondOf(2, t), SecondOf(2, t)) + LossesIn(h, SecondOf(3, t), SecondOf(3, t))
          + LossesIn(h, SecondOf(4, t), SecondOf(4, t))
  {
    if h != [] {
      WindowSplits(h[..|h| - 1], t);
      SecondsAreDistinct(t, h[|h| - 1].second);
    }
  }

  lemma {:induction false} SecondsAreDistinct(t: nat, s: int)
    ensures t - 4 <= s <= t ==> exists r: nat :: r < SLOT_COUNT && s == SecondOf(r, t)
    ensures forall r: nat :: r < SLOT_COUNT && s == SecondOf(r, t) ==> t - 4 <= s <= t && s % SLOT_COUNT == r
  {
    if t - 4 <= s <= t {
      assert s == SecondOf(s % SLOT_COUNT, t);
    }
  }

  /**
   The totals behind the ack rate at second T are those of all events in seconds T-4 to T: the
   five slots, reused by remainder, lose and keep nothing.
   */
  lemma {:induction false} FiveSlotsAreExact(h: seq<Event>)
    requires Chronological(h) && h != []
    ensures var t := h[|h| - 1].second;
            && SlotAcks(Run(h), t - SLOT_COUNT, SLOT_COUNT) == AcksIn(h, t - 4, t)
            && SlotLosses(Run(h), t - SLOT_COUNT, SLOT_COUNT) == LossesIn(h, t - 4, t)
  {
    hide SecondOf, AcksIn, LossesIn, AcksSince, LossesSince, SlotAcks, SlotLosses, Run;
    var t, slots := h[|h| - 1].second, Run(h);
    WindowSplits(h, t);
    SlotContributes(h, 0);
    SlotContributes(h, 1);
    SlotContributes(h, 2);
    SlotContributes(h, 3);
    SlotContributes(h, 4);
    FiveSlots(slots, t - SLOT_COUNT);
  }

  lemma {:induction false} FiveSlots(slots: Slots, oldest: int)
    ensures SlotAcks(slots, oldest, SLOT_COUNT)
         == AcksSince(slots[0], oldest) + AcksSince(slots[1], oldest) + AcksSince(slots[2], oldest)
          + AcksSince(slots[3], oldest) + AcksSince(slots[4], oldest)
    ensures SlotLosses(slots, oldest, SLOT_COUNT)
         == LossesSince(slots[0], oldest) + LossesSince(slots[1], oldest) + LossesSince(slots[2], oldest)
          + LossesSince(slots[3], oldest) + LossesSince(slots[4], oldest)
  {
    assert SlotAcks(slots, oldest, 1) == AcksSince(slots[0], oldest);
    assert SlotAcks(slots, oldest, 3)
        == SlotAcks(slots, oldest, 1) + AcksSince(slots[1], oldest) + AcksSince(slots[2], oldest);
    assert SlotLosses(slots, oldest, 1) == LossesSince(slots[0], oldest);
    assert SlotLosses(slots, oldest, 3)
        == SlotLosses(slots, oldest, 1) + LossesSince(slots[1], oldest) + LossesSince(slots[2], oldest);
  }
}
