/**
 What happens to packets: nothing enqueued is lost or duplicated, each loop writes in enqueue order, every
 write is reported to Tx once, and the byte counts told to Tx add up.
 */
module SenderPackets {
  import opened Rtp
  import opened SenderProtocol
  import opened SenderTotals
  import opened SenderShutdown
  import RtpQueue

  /** The queue is always the tail of what was enqueued, and a packet's id is its position. */
  predicate QueueOk(st: Stream) {
    && |st.queue| <= |st.enqueued|
    && st.queue == st.enqueued[|st.enqueued| - |st.queue|..]
    && forall i | 0 <= i < |st.enqueued| :: st.enqueued[i].id == i
  }

  /** p left the queue of st at some time. */
  predicate HasLeft(st: Stream, p: Packet) {
    p.id + |st.queue| < |st.enqueued| && p == st.enqueued[p.id]
  }

  predicate InOrder(ps: seq<Packet>) {
    forall i, j | 0 <= i < j < |ps| :: ps[i].id < ps[j].id
  }

  function ReportsOf(ps: seq<Packet>): (rs: seq<Report>)
    ensures |rs| == |ps|
    ensures forall i | 0 <= i < |ps| :: rs[i] == ReportOf(ps[i])
  {
    seq(|ps|, i requires 0 <= i < |ps| => ReportOf(ps[i]))
  }

  /** The writes whose report to Tx is due or done: all but one that is between Write and AddTransmitted. */
  function Reported(th: Thread): seq<Packet>
    requires th.Loop?
  {
    if (th.lpc.AtAddLock? || th.lpc.InAdd?) && th.written != [] then th.written[..|th.written| - 1] else th.written
  }

  /** A loop's account of stream `sid`: what it wrote, what it holds and what it reported. */
  predicate LoopOk(ss: seq<Stream>, th: Thread) {
    th.Loop? ==>
      if !PastLookup(th) then th.written == [] && th.reports == []
      else
        && th.sid < |ss|
        && (forall p | p in th.written :: HasLeft(ss[th.sid], p))
        && InOrder(th.written)
        && (HasHand(th) ==> HasLeft(ss[th.sid], th.hand))
        && (th.lpc.AtWrite? ==> forall p | p in th.written :: p.id < th.hand.id)
        && (th.lpc.AtAddLock? || th.lpc.InAdd? ==> th.written != [] && th.written[|th.written| - 1] == th.hand)
        && th.reports == ReportsOf(Reported(th))
  }

  /** Occurrences of p in the queue or among the cleared packets, less one if p was enqueued. */
  function Balance(st: Stream, p: Packet): int {
    multiset(st.queue)[p] + multiset(st.cleared)[p] - Count(p in st.enqueued)
  }

  ghost predicate PlacesOk(s: State) {
    forall sid, p | 0 <= sid < |s.streams| :: Balance(s.streams[sid], p) + Total(Place(sid, p), s.threads) == 0
  }

  function Unannounced(st: Stream): int {
    Bytes(st.enqueued) - st.announcedBytes
  }

  function Unreported(st: Stream): int {
    Bytes(st.enqueued) - st.transmittedBytes - Bytes(st.cleared) - Bytes(st.queue)
  }

  ghost predicate StreamBytesOk(s: State, sid: nat)
    requires sid < |s.streams|
  {
    && Total(Announcing(sid), s.threads) == Unannounced(s.streams[sid])
    && Total(InFlight(sid), s.threads) == Unreported(s.streams[sid])
  }

  ghost predicate BytesOk(s: State) {
    forall sid | 0 <= sid < |s.streams| :: StreamBytesOk(s, sid)
  }

  ghost predicate OrderOk(s: State) {
    && (forall sid | 0 <= sid < |s.streams| :: QueueOk(s.streams[sid]))
    && (forall t | 0 <= t < |s.threads| :: LoopOk(s.streams, s.threads[t]))
  }

  ghost predicate PacketsOk(s: State) {
    OrderOk(s) && PlacesOk(s) && BytesOk(s)
  }

  /** A stream only gains enqueued packets, and a packet that left the queue stays out. */
  predicate Grows(st: Stream, st': Stream) {
    && st.enqueued <= st'.enqueued
    && |st.enqueued| - |st.queue| <= |st'.enqueued| - |st'.queue|
  }

  ghost predicate StreamsGrow(ss: seq<Stream>, ss': seq<Stream>) {
    && |ss| <= |ss'|
    && (forall sid | 0 <= sid < |ss| :: Grows(ss[sid], ss'[sid]))
    && (forall sid | 0 <= sid < |ss'| :: QueueOk(ss'[sid]))
  }

  lemma LoopOkGrows(ss: seq<Stream>, ss': seq<Stream>, th: Thread)
    requires StreamsGrow(ss, ss') && LoopOk(ss, th)
    ensures LoopOk(ss', th)
  {
  }

  lemma StreamGrows(st: Stream, th: Thread)
    requires QueueOk(st)
    ensures QueueOk(StreamAfter(st, th)) && Grows(st, StreamAfter(st, th))
  {
  }

  lemma StreamsGrowByGo(ss: seq<Stream>, th: Thread)
    requires forall sid | 0 <= sid < |ss| :: QueueOk(ss[sid])
    ensures StreamsGrow(ss, StreamsAfter(ss, th))
  {
    var ss' := StreamsAfter(ss, th);
    forall sid | 0 <= sid < |ss|
      ensures Grows(ss[sid], ss'[sid]) && QueueOk(ss'[sid])
    {
      StreamGrows(ss[sid], th);
      assert ss'[sid] == ss[sid] || ss'[sid] == StreamAfter(ss[sid], th);
    }
    forall sid | |ss| <= sid < |ss'|
      ensures QueueOk(ss'[sid])
    {
      assert ss'[sid] == NEW_STREAM;
    }
  }

  lemma LoopDequeues(ss: seq<Stream>, th: Thread, th': Thread)
    requires forall sid | 0 <= sid < |ss| :: QueueOk(ss[sid])
    requires th.Loop? && th.lpc.AtDequeue? && LoopOk(ss, th) && Carries(ss, th, th')
    ensures LoopOk(StreamsAfter(ss, th), th')
  {
    StreamsGrowByGo(ss, th);
    LoopOkGrows(ss, StreamsAfter(ss, th), th);
    var st := ss[th.sid];
    if st.queue != [] {
      assert st.queue[0] == st.enqueued[|st.enqueued| - |st.queue|];
    }
  }

  lemma LoopWrites(ss: seq<Stream>, th: Thread, th': Thread)
    requires th.Loop? && th.lpc.AtWrite? && LoopOk(ss, th) && Carries(ss, th, th')
    ensures LoopOk(ss, th')
  {
    assert th'.written[..|th.written|] == th.written;
  }

  lemma LoopReports(ss: seq<Stream>, th: Thread, th': Thread)
    requires th.Loop? && th.lpc.InAdd? && LoopOk(ss, th) && Carries(ss, th, th')
    ensures LoopOk(ss, th')
  {
    assert ReportsOf(th.written) == ReportsOf(Reported(th)) + [ReportOf(th.hand)];
  }

  lemma LoopStays(ss: seq<Stream>, th: Thread, th': Thread)
    requires th.Loop? && !th.lpc.AtDequeue? && LoopOk(ss, th) && Carries(ss, th, th')
    requires PastLookup(th') ==> th'.sid < |ss|
    ensures LoopOk(ss, th')
  {
    if th.lpc.AtWrite? {
      LoopWrites(ss, th, th');
    } else if th.lpc.InAdd? {
      LoopReports(ss, th, th');
    }
  }

  /** The loop that acts keeps its account in order. */
  lemma LoopOrder(ss: seq<Stream>, th: Thread, th': Thread)
    requires forall sid | 0 <= sid < |ss| :: QueueOk(ss[sid])
    requires th.Loop? && LoopOk(ss, th) && Carries(ss, th, th')
    requires PastLookup(th') ==> th'.sid < |ss|
    ensures LoopOk(StreamsAfter(ss, th), th')
  {
    if th.lpc.AtDequeue? {
      LoopDequeues(ss, th, th');
    } else {
      LoopStays(ss, th, th');
      StreamsGrowByGo(ss, th);
      LoopOkGrows(ss, StreamsAfter(ss, th), th');
    }
  }

  lemma OrderKeptByGo(s: State, t: nat, s': State)
    requires OrderOk(s) && TableOk(s) && TableOk(s') && t < |s.threads| && ActionOf(t, s, s')
    ensures OrderOk(s')
  {
    StreamsGrowByGo(s.streams, s.threads[t]);
    if s.threads[t].Loop? {
      assert StreamsOk(s', s'.threads[t]);
      LoopOrder(s.streams, s.threads[t], s'.threads[t]);
    }
    forall u | 0 <= u < |s.threads| && u != t {
      LoopOkGrows(s.streams, s'.streams, s.threads[u]);
    }
  }

  lemma OrderKeptByClear(s: State, t: nat, sid: nat)
    requires OrderOk(s) && Enabled(s, Clear(t, sid))
    ensures OrderOk(Apply(s, Clear(t, sid)))
  {
    forall u | 0 <= u < |s.threads| {
      LoopOkGrows(s.streams, Apply(s, Clear(t, sid)).streams, s.threads[u]);
    }
  }

  // ----- Every packet is in one place -----

  lemma DequeueBalance(st: Stream, th: Thread, p: Packet)
    requires th.Loop? && th.lpc.AtDequeue? && st.queue != []
    ensures Balance(StreamAfter(st, th), p) + Count(st.queue[0] == p) == Balance(st, p)
  {
    assert st.queue == [st.queue[0]] + st.queue[1..];
  }

  lemma EnqueueBalance(st: Stream, th: Thread, p: Packet)
    requires QueueOk(st) && th.Producer? && th.ppc.AtEnqueue?
    ensures Balance(StreamAfter(st, th), p) == Balance(st, p)
  {
    var x := th.hand.(id := |st.enqueued|);
    assert x !in st.enqueued;
    assert p in st.enqueued + [x] <==> p in st.enqueued || p == x;
  }

  lemma DequeuePlaceStep(ss: seq<Stream>, th: Thread, th': Thread, sid: nat, p: Packet)
    requires th.Loop? && th.lpc.AtDequeue? && th.sid < |ss| && sid < |ss| && Carries(ss, th, th')
    ensures Balance(StreamsAfter(ss, th)[sid], p) + WeightOf(Place(sid, p), th')
            == Balance(ss[sid], p) + WeightOf(Place(sid, p), th)
  {
    if th.sid == sid {
      var st := ss[sid];
      assert StreamsAfter(ss, th)[sid] == StreamAfter(st, th);
      if st.queue == [] {
        assert StreamAfter(st, th) == st;
      } else {
        DequeueBalance(st, th, p);
      }
    } else {
      assert StreamsAfter(ss, th)[sid] == ss[sid];
    }
  }

  /** Writing turns a packet in the hand into a written one. */
  lemma HandPlaceStep(ss: seq<Stream>, th: Thread, th': Thread, sid: nat, p: Packet)
    requires th.Loop? && !th.lpc.AtDequeue? && LoopOk(ss, th) && Carries(ss, th, th')
    ensures WeightOf(Place(sid, p), th') == WeightOf(Place(sid, p), th)
  {
  }

  lemma LoopPlaceStep(ss: seq<Stream>, th: Thread, th': Thread, sid: nat, p: Packet)
    requires th.Loop? && sid < |ss| && LoopOk(ss, th) && Carries(ss, th, th')
    ensures Balance(StreamsAfter(ss, th)[sid], p) + WeightOf(Place(sid, p), th')
            == Balance(ss[sid], p) + WeightOf(Place(sid, p), th)
  {
    if th.lpc.AtDequeue? {
      DequeuePlaceStep(ss, th, th', sid, p);
    } else {
      assert Balance(StreamsAfter(ss, th)[sid], p) == Balance(ss[sid], p);
      HandPlaceStep(ss, th, th', sid, p);
    }
  }

  /** One action of thread th keeps the account of packet p on stream sid. */
  lemma PlaceStep(ss: seq<Stream>, th: Thread, th': Thread, sid: nat, p: Packet)
    requires sid < |ss| && QueueOk(ss[sid]) && LoopOk(ss, th) && Carries(ss, th, th')
    ensures Balance(StreamsAfter(ss, th)[sid], p) + WeightOf(Place(sid, p), th')
            == Balance(ss[sid], p) + WeightOf(Place(sid, p), th)
  {
    match th
    case Loop(_, _, _, _, _, _) => LoopPlaceStep(ss, th, th', sid, p);
    case Producer(_, _, _) =>
      if th.sid == sid && th.ppc.AtEnqueue? {
        EnqueueBalance(ss[sid], th, p);
      }
    case _ =>
  }

  /** No thread works on a stream that is yet to be created. */
  lemma NothingYet(s: State, sid: nat, p: Packet)
    requires OrderOk(s) && TableOk(s) && |s.streams| <= sid
    ensures Total(Place(sid, p), s.threads) == 0
    ensures Total(Announcing(sid), s.threads) == 0
    ensures Total(InFlight(sid), s.threads) == 0
  {
    forall t | 0 <= t < |s.threads|
      ensures WeightOf(Place(sid, p), s.threads[t]) == 0
      ensures WeightOf(Announcing(sid), s.threads[t]) == 0
      ensures WeightOf(InFlight(sid), s.threads[t]) == 0
    {
      assert StreamsOk(s, s.threads[t]) && LoopOk(s.streams, s.threads[t]);
    }
    TotalZero(Place(sid, p), s.threads);
    TotalZero(Announcing(sid), s.threads);
    TotalZero(InFlight(sid), s.threads);
  }

  /** A stream that Bind has just added is empty and nobody works on it. */
  lemma NewStreamEmpty(s: State, t: nat, s': State, sid: nat, p: Packet)
    requires OrderOk(s) && TableOk(s) && t < |s.threads| && ActionOf(t, s, s') && |s.streams| <= sid < |s'.streams|
    ensures s'.streams[sid] == NEW_STREAM
    ensures Total(Place(sid, p), s'.threads) == 0
    ensures Total(Announcing(sid), s'.threads) == 0
    ensures Total(InFlight(sid), s'.threads) == 0
  {
    NothingYet(s, sid, p);
    GoTotal(Place(sid, p), s, t, s');
    GoTotal(Announcing(sid), s, t, s');
    GoTotal(InFlight(sid), s, t, s');
  }

  lemma PlacesKeptByGo(s: State, t: nat, s': State)
    requires OrderOk(s) && PlacesOk(s) && TableOk(s) && OrderOk(s') && TableOk(s')
    requires t < |s.threads| && ActionOf(t, s, s')
    ensures PlacesOk(s')
  {
    forall sid: nat, p | sid < |s'.streams|
      ensures Balance(s'.streams[sid], p) + Total(Place(sid, p), s'.threads) == 0
    {
      if sid < |s.streams| {
        GoTotal(Place(sid, p), s, t, s');
        PlaceStep(s.streams, s.threads[t], s'.threads[t], sid, p);
      } else {
        NewStreamEmpty(s, t, s', sid, p);
      }
    }
  }

  lemma PlacesKeptByClear(s: State, t: nat, cleared: nat)
    requires PlacesOk(s) && Enabled(s, Clear(t, cleared))
    ensures PlacesOk(Apply(s, Clear(t, cleared)))
  {
  }

  // ----- The bytes told to Tx -----

  lemma EnqueueBytes(st: Stream, th: Thread)
    requires th.Producer? && th.ppc.AtEnqueue?
    ensures Unannounced(StreamAfter(st, th)) == Unannounced(st) + th.hand.size
    ensures Unreported(StreamAfter(st, th)) == Unreported(st)
  {
    var x := th.hand.(id := |st.enqueued|);
    BytesConcat(st.enqueued, [x]);
    BytesConcat(st.queue, [x]);
  }

  lemma LoopBytesStep(ss: seq<Stream>, th: Thread, th': Thread, sid: nat)
    requires sid < |ss| && th.Loop? && Carries(ss, th, th')
    ensures Unannounced(StreamsAfter(ss, th)[sid]) == Unannounced(ss[sid])
    ensures Unreported(StreamsAfter(ss, th)[sid]) - WeightOf(InFlight(sid), th')
            == Unreported(ss[sid]) - WeightOf(InFlight(sid), th)
  {
  }

  lemma BytesStep(ss: seq<Stream>, th: Thread, th': Thread, sid: nat)
    requires sid < |ss| && Carries(ss, th, th')
    ensures Unannounced(StreamsAfter(ss, th)[sid]) - WeightOf(Announcing(sid), th')
            == Unannounced(ss[sid]) - WeightOf(Announcing(sid), th)
    ensures Unreported(StreamsAfter(ss, th)[sid]) - WeightOf(InFlight(sid), th')
            == Unreported(ss[sid]) - WeightOf(InFlight(sid), th)
  {
    if th.Loop? {
      LoopBytesStep(ss, th, th', sid);
    } else if th.Producer? && th.ppc.AtEnqueue? && th.sid == sid {
      EnqueueBytes(ss[sid], th);
    }
  }

  lemma StreamBytesKeptByGo(s: State, t: nat, s': State, sid: nat)
    requires sid < |s.streams| && StreamBytesOk(s, sid) && t < |s.threads| && ActionOf(t, s, s')
    ensures sid < |s'.streams| && StreamBytesOk(s', sid)
  {
    GoTotal(Announcing(sid), s, t, s');
    GoTotal(InFlight(sid), s, t, s');
    BytesStep(s.streams, s.threads[t], s'.threads[t], sid);
  }

  lemma NoBytes(st: Stream)
    requires st.enqueued == st.queue == st.cleared == [] && st.announcedBytes == st.transmittedBytes == 0
    ensures Unannounced(st) == 0
    ensures Unreported(st) == 0
  {
  }

  lemma NewStreamBytes(s: State, t: nat, s': State, sid: nat)
    requires OrderOk(s) && TableOk(s) && t < |s.threads| && ActionOf(t, s, s') && |s.streams| <= sid < |s'.streams|
    ensures StreamBytesOk(s', sid)
  {
    NewStreamEmpty(s, t, s', sid, NO_PACKET);
    NoBytes(s'.streams[sid]);
  }

  lemma BytesKeptByGo(s: State, t: nat, s': State)
    requires OrderOk(s) && BytesOk(s) && TableOk(s) && t < |s.threads| && ActionOf(t, s, s')
    ensures BytesOk(s')
  {
    forall sid: nat | sid < |s'.streams|
      ensures StreamBytesOk(s', sid)
    {
      if sid < |s.streams| {
        assert StreamBytesOk(s, sid);
        StreamBytesKeptByGo(s, t, s', sid);
      } else {
        NewStreamBytes(s, t, s', sid);
      }
    }
  }

  lemma BytesKeptByClear(s: State, t: nat, cleared: nat)
    requires BytesOk(s) && Enabled(s, Clear(t, cleared))
    ensures BytesOk(Apply(s, Clear(t, cleared)))
  {
    var s' := Apply(s, Clear(t, cleared));
    forall sid: nat | sid < |s.streams|
      ensures StreamBytesOk(s', sid)
    {
      assert StreamBytesOk(s, sid);
      BytesConcat(s.streams[cleared].cleared, s.streams[cleared].queue);
    }
  }

  // ----- The invariant over every run -----

  /** A receive from a parked sender changes no total over packets or bytes. */
  lemma MeetMovesNothing(s: State, u: nat, v: nat, w: Weight)
    requires Enabled(s, Meet(u, v)) && (w.Place? || w.Announcing? || w.InFlight?)
    ensures Total(w, Apply(s, Meet(u, v)).threads) == Total(w, s.threads)
  {
    MeetTotal(w, s, u, v);
  }

  lemma SameTotals(s: State, s': State)
    requires PacketsOk(s) && s'.streams == s.streams
    requires forall w: Weight | w.Place? || w.Announcing? || w.InFlight? :: Total(w, s'.threads) == Total(w, s.threads)
    requires forall t | 0 <= t < |s'.threads| :: LoopOk(s.streams, s'.threads[t])
    ensures PacketsOk(s')
  {
    forall sid: nat | sid < |s.streams|
      ensures StreamBytesOk(s', sid)
    {
      assert StreamBytesOk(s, sid);
    }
  }

  lemma PacketsKeptByMeet(s: State, u: nat, v: nat)
    requires PacketsOk(s) && Enabled(s, Meet(u, v))
    ensures PacketsOk(Apply(s, Meet(u, v)))
  {
    var s' := Apply(s, Meet(u, v));
    forall w: Weight | w.Place? || w.Announcing? || w.InFlight?
      ensures Total(w, s'.threads) == Total(w, s.threads)
    {
      MeetMovesNothing(s, u, v, w);
    }
    SameTotals(s, s');
  }

  lemma PacketsKeptByCall(s: State, th: Thread)
    requires PacketsOk(s) && Enabled(s, Call(th))
    ensures PacketsOk(Apply(s, Call(th)))
  {
    var s' := Apply(s, Call(th));
    forall w: Weight | w.Place? || w.Announcing? || w.InFlight?
      ensures Total(w, s'.threads) == Total(w, s.threads)
    {
      TotalAppend(w, s.threads, th);
    }
    SameTotals(s, s');
  }

  lemma PacketsKept(s: State, l: Label)
    requires Safe(s) && PacketsOk(s) && Enabled(s, l)
    ensures PacketsOk(Apply(s, l))
  {
    var s' := Apply(s, l);
    SafeKept(s, l);
    match l
    case Call(th) => PacketsKeptByCall(s, th);
    case Meet(u, v) => PacketsKeptByMeet(s, u, v);
    case Clear(t, sid) =>
      OrderKeptByClear(s, t, sid);
      PlacesKeptByClear(s, t, sid);
      BytesKeptByClear(s, t, sid);
    case Go(t, ok) =>
      OrderKeptByGo(s, t, s');
      PlacesKeptByGo(s, t, s');
      BytesKeptByGo(s, t, s');
  }

  lemma {:induction false} PacketsAfter(s: State, ls: seq<Label>)
    requires Safe(s) && PacketsOk(s) && Trace(s, ls)
    ensures PacketsOk(After(s, ls))
    decreases |ls|
  {
    if ls == [] {
    } else {
      PacketsKept(s, ls[0]);
      SafeKept(s, ls[0]);
      PacketsAfter(Apply(s, ls[0]), ls[1..]);
    }
  }

  lemma ReachablePackets(s: State)
    requires Reachable(s)
    ensures Safe(s) && PacketsOk(s)
  {
    var ls :| Trace(INIT, ls) && After(INIT, ls) == s;
    PacketsAfter(INIT, ls);
    ReachableSafe(s);
  }

  // ----- The queue -----

  /** The queue operation that is thread th's next action on its stream, if any. */
  function QueueOp(st: Stream, th: Thread, ts: real): Option<RtpQueue.Op> {
    if th.Producer? && th.ppc.AtEnqueue? then Some(RtpQueue.Enqueue(th.hand.(id := |st.enqueued|), ts))
    else if th.Loop? && th.lpc.AtDequeue? then Some(RtpQueue.Dequeue)
    else None
  }

  /** The stream's queue moves as the heap queue does: when it holds the stream's packets before an action, it
      does so after the operation that the action performs on it. */
  lemma QueueFollowsHeapQueue(st: Stream, th: Thread, items: seq<RtpQueue.Item>, ts: real)
    requires RtpQueue.Packets(items) == st.queue
    ensures var op := QueueOp(st, th, ts);
      StreamAfter(st, th).queue == RtpQueue.Packets(if op.Some? then RtpQueue.Step(items, op.value) else items)
    ensures RtpQueue.Packets(RtpQueue.Step(items, RtpQueue.Clear)) == []
  {
    var op := QueueOp(st, th, ts);
    if op.Some? {
      var after := RtpQueue.Packets(RtpQueue.Step(items, op.value));
      assert StreamAfter(st, th).queue == after;
    }
  }

  // ----- What it means -----

  /** Every enqueued packet is in exactly one place: queued, cleared by Tx, written by one loop, or in one
      loop's hand about to be written. A packet that was not enqueued is nowhere. */
  lemma EveryPacketInOnePlace(s: State, sid: nat, p: Packet)
    requires Reachable(s) && sid < |s.streams|
    ensures multiset(s.streams[sid].queue)[p] + multiset(s.streams[sid].cleared)[p] + Total(Place(sid, p), s.threads)
            == if p in s.streams[sid].enqueued then 1 else 0
  {
    ReachablePackets(s);
    assert Balance(s.streams[sid], p) + Total(Place(sid, p), s.threads) == 0;
  }

  lemma {:induction false} TwoWeights(w: Weight, ths: seq<Thread>, t: nat, u: nat)
    requires t < u < |ths|
    ensures WeightOf(w, ths[t]) + WeightOf(w, ths[u]) <= Total(w, ths)
  {
    if u == |ths| - 1 {
      TotalBound(w, ths[..u], t);
    } else {
      TwoWeights(w, ths[..|ths| - 1], t, u);
    }
  }

  lemma WrittenWeighs(th: Thread, sid: nat, p: Packet)
    requires th.Loop? && th.sid == sid
    ensures p in th.written ==> WeightOf(Place(sid, p), th) >= 1
  {
  }

  /** Even when two loops serve one stream, no packet is written by both. */
  lemma NoPacketWrittenTwice(s: State, t: nat, u: nat, p: Packet)
    requires Reachable(s) && t < u < |s.threads| && s.threads[t].Loop? && s.threads[u].Loop?
    requires s.threads[t].sid == s.threads[u].sid < |s.streams|
    ensures !(p in s.threads[t].written && p in s.threads[u].written)
  {
    var sid := s.threads[t].sid;
    EveryPacketInOnePlace(s, sid, p);
    TwoWeights(Place(sid, p), s.threads, t, u);
    WrittenWeighs(s.threads[t], sid, p);
    WrittenWeighs(s.threads[u], sid, p);
  }

  /** What a loop hands to writer.Write is a subsequence of what was enqueued on its stream, in enqueue order
      and without repetition. */
  lemma WritesInOrder(s: State, t: nat)
    requires Reachable(s) && t < |s.threads| && PastLookup(s.threads[t])
    ensures s.threads[t].sid < |s.streams|
    ensures var enqueued, written := s.streams[s.threads[t].sid].enqueued, s.threads[t].written;
      && (forall i | 0 <= i < |written| :: written[i].id < |enqueued| && enqueued[written[i].id] == written[i])
      && (forall i, j | 0 <= i < j < |written| :: written[i].id < written[j].id)
  {
    ReachablePackets(s);
    var th := s.threads[t];
    assert LoopOk(s.streams, th);
    forall i | 0 <= i < |th.written|
      ensures HasLeft(s.streams[th.sid], th.written[i])
    {
      assert th.written[i] in th.written;
    }
  }

  /** Each write is reported to Tx.AddTransmitted once, in the same order and with that packet's size, sequence
      number and marker; only the latest write may still be unreported, and never at the select. */
  lemma WritesReportedOnce(s: State, t: nat)
    requires Reachable(s) && t < |s.threads| && s.threads[t].Loop?
    ensures var th := s.threads[t];
      && |th.reports| <= |th.written| <= |th.reports| + 1
      && (|th.written| == |th.reports| + 1 ==> th.lpc.AtAddLock? || th.lpc.InAdd?)
      && forall i | 0 <= i < |th.reports| ::
           th.reports[i] == Report(th.written[i].size, th.written[i].seqNr, th.written[i].marker)
  {
    ReachablePackets(s);
    assert LoopOk(s.streams, s.threads[t]);
  }

  /** No packet of stream sid is between its enqueue and its announcement, or between leaving the queue and
      its report. */
  predicate Quiescent(s: State, sid: nat) {
    forall t | 0 <= t < |s.threads| ::
      && !(s.threads[t].Producer? && s.threads[t].sid == sid
           && (s.threads[t].ppc.AtAnnounceLock? || s.threads[t].ppc.InAnnounce?))
      && !(HasHand(s.threads[t]) && s.threads[t].sid == sid)
  }

  /** The bytes announced by NewMediaFrame, less those still to be announced, are accounted for. At a
      quiescent point they are exactly the bytes reported transmitted, cleared, or still queued. */
  lemma BytesAddUp(s: State, sid: nat)
    requires Reachable(s) && sid < |s.streams|
    ensures var st := s.streams[sid];
      && st.announcedBytes + Total(Announcing(sid), s.threads) == Bytes(st.enqueued)
      && st.transmittedBytes + Total(InFlight(sid), s.threads) + Bytes(st.cleared) + Bytes(st.queue)
         == Bytes(st.enqueued)
      && (Quiescent(s, sid) ==> st.announcedBytes == st.transmittedBytes + Bytes(st.cleared) + Bytes(st.queue))
  {
    ReachablePackets(s);
    assert StreamBytesOk(s, sid);
    if Quiescent(s, sid) {
      TotalZero(Announcing(sid), s.threads);
      TotalZero(InFlight(sid), s.threads);
    }
  }
}
