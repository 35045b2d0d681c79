/**
 Feedback inferred from transport acknowledgements: acks are buffered, and every tick the batch is sorted,
 stamped with the time each packet presumably arrived, and handed to scream.Rx.
 */
module FeedbackInferer {
  import opened Rtp
  import opened NtpClock

  /** A packet whose acknowledgement arrived; the instant it was sent is in microseconds. */
  datatype AckedPkt = AckedPkt(sentTs: int, ssrc: Ssrc, size: nat, seqNr: uint16)

  /** Round-trip times, in nanoseconds. */
  datatype Metrics = Metrics(smoothedRtt: nat, latestRtt: nat)

  /** One call of rx.Receive. */
  datatype Delivery = Delivery(ts: nat, pkt: AckedPkt)

  /** Half a round-trip time in clock ticks, as the loop computes it. */
  function HalfRtt(rtt: nat): nat {
    rtt * TICKS_PER_SECOND / 1_000_000_000 / 2
  }

  /** When the packet is taken to have arrived. */
  function Stamp(t0: int, pkt: AckedPkt, rtt: nat): nat
    requires t0 <= pkt.sentTs
  {
    Ntp(t0, pkt.sentTs) + HalfRtt(rtt)
  }

  /** The stamp lies half a round-trip time, in nanoseconds, after the clock's reading at the send time, rounded
      down to a tick of 1/65536 s. */
  predicate StampedHalfway(t0: int, d: Delivery, rtt: nat) {
    && t0 <= d.pkt.sentTs
    && var half := d.ts - Ntp(t0, d.pkt.sentTs);
       2_000_000_000 * half <= rtt * 65536 < 2_000_000_000 * (half + 1)
  }

  /** The loop's computation gives that stamp, and no other value is. */
  lemma HalfwayIff(t0: int, d: Delivery, rtt: nat)
    requires t0 <= d.pkt.sentTs
    ensures StampedHalfway(t0, d, rtt) <==> d.ts == Stamp(t0, d.pkt, rtt)
  {
  }

  predicate Sorted(pkts: seq<AckedPkt>) {
    forall i, j | 0 <= i < j < |pkts| :: pkts[i].seqNr <= pkts[j].seqNr
  }

  function PktsOf(ds: seq<Delivery>): (pkts: seq<AckedPkt>)
    ensures |pkts| == |ds| && forall i | 0 <= i < |ds| :: pkts[i] == ds[i].pkt
  {
    seq(|ds|, i requires 0 <= i < |ds| => ds[i].pkt)
  }

  lemma InsertedSorted(before: seq<AckedPkt>, pkt: AckedPkt, after: seq<AckedPkt>)
    requires Sorted(before + after)
    requires forall j | 0 <= j < |before| :: before[j].seqNr <= pkt.seqNr
    requires forall j | 0 <= j < |after| :: pkt.seqNr <= after[j].seqNr
    ensures Sorted(before + [pkt] + after)
    ensures multiset(before + [pkt] + after) == multiset(before + after) + multiset{pkt}
  {
    var r, s := before + [pkt] + after, before + after;
    forall i, j | 0 <= i < j < |r|
      ensures r[i].seqNr <= r[j].seqNr
    {
      var i', j' := if i <= |before| then i else i - 1, if j <= |before| then j else j - 1;
      if i != |before| && j != |before| {
        assert r[i] == s[i'] && r[j] == s[j'];
      }
    }
  }

  method Position(pkts: seq<AckedPkt>, pkt: AckedPkt) returns (i: nat)
    requires Sorted(pkts)
    ensures i <= |pkts|
    ensures forall j | 0 <= j < i :: pkts[j].seqNr <= pkt.seqNr
    ensures forall j | i <= j < |pkts| :: pkt.seqNr < pkts[j].seqNr
  {
    i := |pkts|;
    while i > 0 && pkts[i - 1].seqNr > pkt.seqNr
      invariant 0 <= i <= |pkts|
      invariant forall j | i <= j < |pkts| :: pkts[j].seqNr > pkt.seqNr
    {
      i := i - 1;
    }
  }

  method Insert(pkts: seq<AckedPkt>, pkt: AckedPkt) returns (r: seq<AckedPkt>)
    requires Sorted(pkts)
    ensures Sorted(r) && multiset(r) == multiset(pkts) + multiset{pkt}
  {
    var i := Position(pkts, pkt);
    var before, after := pkts[..i], pkts[i..];
    assert before + after == pkts;
    InsertedSorted(before, pkt, after);
    r := before + [pkt] + after;
  }

  /** sort.Slice by sequence number. Packets with equal numbers may come out in any order. */
  method Sort(buf: seq<AckedPkt>) returns (r: seq<AckedPkt>)
    ensures Sorted(r) && multiset(r) == multiset(buf)
  {
    r := [];
    for i := 0 to |buf|
      invariant Sorted(r) && multiset(r) == multiset(buf[..i])
    {
      assert buf[..i + 1] == buf[..i] + [buf[i]];
      r := Insert(r, buf[i]);
    }
    assert buf[..|buf|] == buf;
  }

  lemma PktsOfConcat(a: seq<Delivery>, b: seq<Delivery>)
    ensures PktsOf(a + b) == PktsOf(a) + PktsOf(b)
  {
  }

  lemma Moved(from: multiset<AckedPkt>, to: multiset<AckedPkt>, pkt: AckedPkt)
    requires pkt in from
    ensures (from - multiset{pkt}) + (to + multiset{pkt}) == from + to
  {
  }

  /** ds delivers the packets of buf, sorted by sequence number, each with its stamp. */
  ghost predicate IsBatch(t0: int, rtt: nat, buf: seq<AckedPkt>, ds: seq<Delivery>) {
    && multiset(PktsOf(ds)) == multiset(buf) && Sorted(PktsOf(ds))
    && forall i | 0 <= i < |ds| :: StampedHalfway(t0, ds[i], rtt)
  }

  /** The stamp of the last of some deliveries. */
  function LastTs(ds: seq<Delivery>): nat
    requires ds != []
  {
    ds[|ds| - 1].ts
  }

  lemma LastTsConcat(a: seq<Delivery>, b: seq<Delivery>)
    requires b != []
    ensures LastTs(a + b) == LastTs(b)
  {
  }

  /** The capacity of the channel of acks. */
  const CAPACITY: nat := 1000

  class Inferer {
    const t0: int
    const inferFromSmoothedRtt: bool

    var sending: multiset<AckedPkt>   // acks held by goroutines that have not sent them yet
    var acked: seq<AckedPkt>          // the channel of acks
    var buf: seq<AckedPkt>
    var delivered: seq<Delivery>      // all calls of rx.Receive
    var requested: seq<nat>           // the timestamps with which feedback was requested
    ghost var notified: multiset<AckedPkt> // acks whose notify fired with true

    /** Every ack notified is in exactly one place, and no packet was sent before the clock's start. */
    ghost predicate Valid()
      reads this
    {
      && notified == sending + multiset(acked) + multiset(buf) + multiset(PktsOf(delivered))
      && (forall pkt | pkt in notified :: t0 <= pkt.sentTs)
      && |acked| <= CAPACITY
    }

    constructor (t0: int, inferFromSmoothedRtt: bool)
      ensures Valid() && this.t0 == t0 && notified == multiset{} && delivered == [] && requested == []
    {
      this.t0, this.inferFromSmoothedRtt := t0, inferFromSmoothedRtt;
      sending, acked, buf, delivered, requested, notified := multiset{}, [], [], [], [], multiset{};
    }

    /** The notify callback of a sent packet; a lost packet is ignored. */
    method Notify(received: bool, pkt: AckedPkt)
      requires Valid() && t0 <= pkt.sentTs
      modifies this
      ensures Valid() && acked == old(acked) && buf == old(buf)
      ensures delivered == old(delivered) && requested == old(requested)
      ensures notified == old(notified) + if received then multiset{pkt} else multiset{}
    {
      if !received {
        return;
      }
      notified := notified + multiset{pkt};
      sending := sending + multiset{pkt};
    }

    /** A goroutine sends its ack on the channel, which has room. */
    method SendAck(pkt: AckedPkt)
      requires Valid() && pkt in sending && |acked| < CAPACITY
      modifies this
      ensures Valid() && acked == old(acked) + [pkt] && buf == old(buf)
      ensures delivered == old(delivered) && requested == old(requested) && notified == old(notified)
    {
      Moved(sending, multiset(acked), pkt);
      sending := sending - multiset{pkt};
      acked := acked + [pkt];
    }

    /** The loop receives an ack from the channel. */
    method TakeAck()
      requires Valid() && acked != []
      modifies this
      ensures Valid() && acked == old(acked)[1..] && buf == old(buf) + [old(acked)[0]]
      ensures delivered == old(delivered) && requested == old(requested) && notified == old(notified)
    {
      assert acked == [acked[0]] + acked[1..];
      buf := buf + [acked[0]];
      acked := acked[1..];
    }

    /** The calls of rx.Receive for a sorted batch. */
    method Stamped(batch: seq<AckedPkt>, metrics: Metrics) returns (ds: seq<Delivery>)
      requires Sorted(batch) && forall pkt | pkt in multiset(batch) :: t0 <= pkt.sentTs
      ensures PktsOf(ds) == batch
      ensures IsBatch(t0, if inferFromSmoothedRtt then metrics.smoothedRtt else metrics.latestRtt, batch, ds)
    {
      ds := [];
      for i := 0 to |batch|
        invariant |ds| == i && forall j | 0 <= j < i :: ds[j].pkt == batch[j]
        invariant forall j | 0 <= j < i ::
                    StampedHalfway(t0, ds[j], if inferFromSmoothedRtt then metrics.smoothedRtt else metrics.latestRtt)
      {
        assert batch[i] in multiset(batch);
        var sent := Ntp(t0, batch[i].sentTs);
        var rttNtp: nat;
        if inferFromSmoothedRtt {
          rttNtp := metrics.smoothedRtt * TICKS_PER_SECOND / 1_000_000_000;
        } else {
          rttNtp := metrics.latestRtt * TICKS_PER_SECOND / 1_000_000_000;
        }
        var lastTs := sent + rttNtp / 2;
        HalfwayIff(t0, Delivery(lastTs, batch[i]),
                   if inferFromSmoothedRtt then metrics.smoothedRtt else metrics.latestRtt);
        ds := ds + [Delivery(lastTs, batch[i])];
      }
      assert PktsOf(ds) == batch;
    }

    /** The calls of rx.Receive for the buffered acks. */
    method Deliveries(metrics: Metrics) returns (ds: seq<Delivery>)
      requires Valid()
      ensures IsBatch(t0, if inferFromSmoothedRtt then metrics.smoothedRtt else metrics.latestRtt, buf, ds)
      ensures |ds| == |buf|
    {
      var batch := Sort(buf);
      assert |multiset(batch)| == |multiset(buf)|;
      forall pkt: AckedPkt | pkt in multiset(batch)
        ensures t0 <= pkt.sentTs
      {
        assert pkt in notified;
      }
      ds := Stamped(batch, metrics);
    }

    /** The batch goes to rx and the buffer is emptied. */
    method HandOver(deliveries: seq<Delivery>)
      requires Valid() && multiset(PktsOf(deliveries)) == multiset(buf) && deliveries != []
      modifies this
      ensures Valid() && buf == [] && acked == old(acked) && notified == old(notified)
      ensures delivered == old(delivered) + deliveries && requested == old(requested) + [LastTs(deliveries)]
    {
      PktsOfConcat(delivered, deliveries);
      delivered := delivered + deliveries;
      requested := requested + [LastTs(deliveries)];
      buf := [];
    }

    /** The ticker fires: a nonempty batch is delivered sorted by sequence number, each packet with its stamp,
        and feedback is requested once, with the last packet's stamp. */
    method Tick(metrics: Metrics)
      requires Valid()
      modifies this
      ensures Valid() && buf == [] && acked == old(acked) && notified == old(notified)
      ensures old(buf) == [] ==> delivered == old(delivered) && requested == old(requested)
      ensures old(delivered) <= delivered
      ensures IsBatch(t0, if inferFromSmoothedRtt then metrics.smoothedRtt else metrics.latestRtt,
                      old(buf), delivered[|old(delivered)|..])
      ensures old(buf) != [] ==> delivered != [] && requested == old(requested) + [LastTs(delivered)]
    {
      if |buf| == 0 {
        return;
      }
      var deliveries := Deliveries(metrics);
      LastTsConcat(delivered, deliveries);
      assert (delivered + deliveries)[|delivered|..] == deliveries;
      HandOver(deliveries);
    }
  }

  // ----- Whole runs -----

  datatype Event = Notified(received: bool, pkt: AckedPkt) | Sent(pkt: AckedPkt) | Taken | Ticked(metrics: Metrics)

  function ReceivedBy(e: Event): multiset<AckedPkt> {
    if e.Notified? && e.received then multiset{e.pkt} else multiset{}
  }

  /** The acks that a run's notify callbacks report as received. */
  function Received(events: seq<Event>): multiset<AckedPkt> {
    if events == [] then multiset{}
    else Received(events[..|events| - 1]) + ReceivedBy(events[|events| - 1])
  }

  /** One event; one that is not possible when its turn comes is skipped. */
  method Perform(f: Inferer, e: Event)
    requires f.Valid() && (e.Notified? ==> f.t0 <= e.pkt.sentTs)
    modifies f
    ensures f.Valid()
    ensures f.notified == old(f.notified) + ReceivedBy(e)
  {
    match e
    case Notified(received, pkt) => f.Notify(received, pkt);
    case Sent(pkt) => if pkt in f.sending && |f.acked| < CAPACITY { f.SendAck(pkt); }
    case Taken => if f.acked != [] { f.TakeAck(); }
    case Ticked(metrics) => f.Tick(metrics);
  }

  /** Over any run, whatever the interleaving of callbacks, goroutines and ticks: the acks reported as received
      are, as a multiset, those handed to rx.Receive and those still held by goroutines, the channel or the
      buffer. */
  method Run(t0: int, smoothed: bool, events: seq<Event>) returns (f: Inferer)
    requires forall e | e in events && e.Notified? :: t0 <= e.pkt.sentTs
    ensures fresh(f)
    ensures Received(events) == f.sending + multiset(f.acked) + multiset(f.buf) + multiset(PktsOf(f.delivered))
  {
    f := new Inferer(t0, smoothed);
    for i := 0 to |events|
      invariant fresh(f) && f.Valid() && f.t0 == t0 && f.notified == Received(events[..i])
    {
      assert Received(events[..i + 1]) == Received(events[..i]) + ReceivedBy(events[i]) by {
        assert events[..i + 1][..i] == events[..i];
      }
      assert events[i] in events;
      Perform(f, events[i]);
    }
    assert events[..|events|] == events;
  }

  // ----- The order of timestamps -----

  ghost predicate SentInOrder(pkts: seq<AckedPkt>) {
    forall p, q | p in pkts && q in pkts && p.seqNr <= q.seqNr :: p.sentTs <= q.sentTs
  }

  /** How often the clock has wrapped before instant t. */
  function Turn(t0: int, t: int): nat
    requires t0 <= t
  {
    Ticks(t0, t) / WRAP
  }

  ghost predicate SameTurn(t0: int, pkts: seq<AckedPkt>) {
    && (forall p | p in pkts :: t0 <= p.sentTs)
    && forall p, q | p in pkts && q in pkts :: Turn(t0, p.sentTs) == Turn(t0, q.sentTs)
  }

  ghost predicate InTimeOrder(ds: seq<Delivery>) {
    forall i, j | 0 <= i < j < |ds| :: ds[i].ts <= ds[j].ts
  }

  lemma DeliversExactly(t0: int, rtt: nat, buf: seq<AckedPkt>, ds: seq<Delivery>)
    requires IsBatch(t0, rtt, buf, ds)
    ensures forall i | 0 <= i < |ds| :: ds[i].pkt in buf
    ensures forall p | p in buf :: exists i :: 0 <= i < |ds| && ds[i].pkt == p
  {
    forall i | 0 <= i < |ds|
      ensures ds[i].pkt in buf
    {
      assert PktsOf(ds)[i] in multiset(buf);
    }
    forall p | p in buf
      ensures exists i :: 0 <= i < |ds| && ds[i].pkt == p
    {
      assert p in multiset(PktsOf(ds));
    }
  }

  /** What one tick delivers of a batch whose send times follow the 16-bit sequence numbers and within which the
      clock does not wrap: the timestamps passed to rx.Receive do not decrease, so the one feedback is requested
      with, the last, is the greatest of the batch. */
  lemma StampsDoNotDecrease(t0: int, rtt: nat, buf: seq<AckedPkt>, ds: seq<Delivery>)
    requires IsBatch(t0, rtt, buf, ds) && SentInOrder(buf) && SameTurn(t0, buf)
    ensures InTimeOrder(ds)
    ensures forall d | d in ds :: d.ts <= LastTs(ds)
  {
    DeliversExactly(t0, rtt, buf, ds);
    forall i, j | 0 <= i < j < |ds|
      ensures ds[i].ts <= ds[j].ts
    {
      HalfwayIff(t0, ds[i], rtt);
      HalfwayIff(t0, ds[j], rtt);
      assert PktsOf(ds)[i].seqNr <= PktsOf(ds)[j].seqNr;
      MonotoneBetweenWraps(t0, ds[i].pkt.sentTs, ds[j].pkt.sentTs);
    }
  }

  // ----- Wraps within a batch -----

  const SEQUENCE_WRAP: int := 0x1_0000

  /** How often the sequence number has wrapped before packet number n. */
  function Epoch(n: nat): nat {
    n / SEQUENCE_WRAP
  }

  /** The packets of the batch are numbered by `number` in a stream whose sequence number is its low 16 bits; a
      number is sent once, and the batch spans less than a whole round of either counter. The wall clock that
      gives the send times may step back. */
  ghost predicate Numbered(t0: int, buf: seq<AckedPkt>, number: AckedPkt -> nat) {
    && (forall p | p in buf :: t0 <= p.sentTs && p.seqNr == number(p) % SEQUENCE_WRAP)
    && (forall p, q | p in buf && q in buf && number(p) <= number(q) ::
          && number(q) - number(p) < SEQUENCE_WRAP
          && -WRAP < Ticks(t0, q.sentTs) - Ticks(t0, p.sentTs) < WRAP
          && (number(p) == number(q) ==> p.sentTs == q.sentTs))
  }

  /** A packet sent at `first` may be delivered before one sent at `second`: it was sent no later and the 32-bit
      clock did not wrap between them, or later and the clock did wrap. */
  predicate MayPrecede(t0: int, first: int, second: int)
    requires t0 <= first && t0 <= second
  {
    if Ticks(t0, first) <= Ticks(t0, second) then Turn(t0, first) == Turn(t0, second)
    else Turn(t0, first) != Turn(t0, second)
  }

  /** Packet q, numbered after p, is not stamped out of order. It is delivered after p, unless the sequence
      number wraps between them. */
  predicate Harmless(t0: int, p: AckedPkt, q: AckedPkt, number: AckedPkt -> nat)
    requires t0 <= p.sentTs && t0 <= q.sentTs
  {
    if Epoch(number(p)) == Epoch(number(q)) then MayPrecede(t0, p.sentTs, q.sentTs)
    else MayPrecede(t0, q.sentTs, p.sentTs)
  }

  /** Readings of instants less than a turn apart compare as the instants do, or, in different turns, the other
      way round. */
  lemma ReadingsCompare(x: nat, y: nat)
    requires -WRAP < y - x < WRAP
    ensures x % WRAP <= y % WRAP <==> if x <= y then x / WRAP == y / WRAP else x / WRAP != y / WRAP
  {
  }

  lemma LowBitsCompare(m: nat, n: nat)
    requires m < n < m + SEQUENCE_WRAP
    ensures if Epoch(m) == Epoch(n) then m % SEQUENCE_WRAP < n % SEQUENCE_WRAP
            else n % SEQUENCE_WRAP < m % SEQUENCE_WRAP
  {
  }

  /** Two delivered packets are stamped in the order of delivery exactly if they are harmless to each other. */
  lemma PairInOrder(t0: int, rtt: nat, buf: seq<AckedPkt>, ds: seq<Delivery>, number: AckedPkt -> nat, i: nat, j: nat)
    requires IsBatch(t0, rtt, buf, ds) && Numbered(t0, buf, number)
    requires i < |ds| && j < |ds| && ds[i].pkt in buf && ds[j].pkt in buf
    requires number(ds[i].pkt) < number(ds[j].pkt)
    ensures Harmless(t0, ds[i].pkt, ds[j].pkt, number)
            <==> if i < j then ds[i].ts <= ds[j].ts else ds[j].ts <= ds[i].ts
  {
    var p, q := ds[i].pkt, ds[j].pkt;
    HalfwayIff(t0, ds[i], rtt);
    HalfwayIff(t0, ds[j], rtt);
    ReadingsCompare(Ticks(t0, p.sentTs), Ticks(t0, q.sentTs));
    ReadingsCompare(Ticks(t0, q.sentTs), Ticks(t0, p.sentTs));
    LowBitsCompare(number(p), number(q));
    assert PktsOf(ds)[i] == p && PktsOf(ds)[j] == q;
  }

  /** Exactly when a batch is delivered in time order: no two packets are harmed by a wrap of the sequence
      number, a wrap of the 32-bit clock or a step back of the wall clock, alone or together. */
  lemma TimeOrderIff(t0: int, rtt: nat, buf: seq<AckedPkt>, ds: seq<Delivery>, number: AckedPkt -> nat)
    requires IsBatch(t0, rtt, buf, ds) && Numbered(t0, buf, number)
    ensures InTimeOrder(ds)
            <==> forall p, q | p in buf && q in buf && number(p) < number(q) :: Harmless(t0, p, q, number)
  {
    DeliversExactly(t0, rtt, buf, ds);
    if InTimeOrder(ds) {
      forall p, q | p in buf && q in buf && number(p) < number(q)
        ensures Harmless(t0, p, q, number)
      {
        var i: nat :| i < |ds| && ds[i].pkt == p;
        var j: nat :| j < |ds| && ds[j].pkt == q;
        PairInOrder(t0, rtt, buf, ds, number, i, j);
      }
    }
    if forall p, q | p in buf && q in buf && number(p) < number(q) :: Harmless(t0, p, q, number) {
      forall i, j | 0 <= i < j < |ds|
        ensures ds[i].ts <= ds[j].ts
      {
        var p, q := ds[i].pkt, ds[j].pkt;
        if number(p) < number(q) {
          PairInOrder(t0, rtt, buf, ds, number, i, j);
        } else if number(q) < number(p) {
          PairInOrder(t0, rtt, buf, ds, number, j, i);
        } else {
          HalfwayIff(t0, ds[i], rtt);
          HalfwayIff(t0, ds[j], rtt);
        }
      }
    }
  }

  /** A batch around a wrap of the sequence number: packet 65535, and 1 ms later packet 0. The later one is
      delivered first, with the later stamp, whatever the round-trip time. */
  lemma SequenceWrapDisorders(rtt: nat) returns (buf: seq<AckedPkt>, ds: seq<Delivery>)
    ensures buf == [AckedPkt(0, 0, 0, 0xFFFF), AckedPkt(1000, 0, 0, 0)]
    ensures IsBatch(0, rtt, buf, ds) && !InTimeOrder(ds)
  {
    var p, q := AckedPkt(0, 0, 0, 0xFFFF), AckedPkt(1000, 0, 0, 0);
    buf, ds := [p, q], [Delivery(Stamp(0, q, rtt), q), Delivery(Stamp(0, p, rtt), p)];
    assert PktsOf(ds) == [q, p];
    HalfwayIff(0, ds[0], rtt);
    HalfwayIff(0, ds[1], rtt);
    Reading(0, p.sentTs, 0);
    Reading(0, q.sentTs, 65);
  }

  /** A batch around a wrap of the clock: packets 1 and 2, sent 1 ms apart. The later one has the lower stamp. */
  lemma ClockWrapDisorders(rtt: nat) returns (buf: seq<AckedPkt>, ds: seq<Delivery>)
    ensures buf == [AckedPkt(65536 * SECOND - 500, 0, 0, 1), AckedPkt(65536 * SECOND + 500, 0, 0, 2)]
    ensures IsBatch(0, rtt, buf, ds) && !InTimeOrder(ds)
  {
    var p, q := AckedPkt(65536 * SECOND - 500, 0, 0, 1), AckedPkt(65536 * SECOND + 500, 0, 0, 2);
    buf, ds := [p, q], [Delivery(Stamp(0, p, rtt), p), Delivery(Stamp(0, q, rtt), q)];
    assert PktsOf(ds) == [p, q];
    HalfwayIff(0, ds[0], rtt);
    HalfwayIff(0, ds[1], rtt);
    Reading(0, p.sentTs, WRAP - 33);
    Reading(0, q.sentTs, WRAP + 32);
  }

  /** A batch during which the wall clock is set back: packet 1, and after a step of 1 ms packet 2. */
  lemma ClockStepDisorders(rtt: nat) returns (buf: seq<AckedPkt>, ds: seq<Delivery>)
    ensures buf == [AckedPkt(1000, 0, 0, 1), AckedPkt(0, 0, 0, 2)]
    ensures IsBatch(0, rtt, buf, ds) && !InTimeOrder(ds)
  {
    var p, q := AckedPkt(1000, 0, 0, 1), AckedPkt(0, 0, 0, 2);
    buf, ds := [p, q], [Delivery(Stamp(0, p, rtt), p), Delivery(Stamp(0, q, rtt), q)];
    assert PktsOf(ds) == [p, q];
    HalfwayIff(0, ds[0], rtt);
    HalfwayIff(0, ds[1], rtt);
    Reading(0, p.sentTs, 65);
    Reading(0, q.sentTs, 0);
  }
}
