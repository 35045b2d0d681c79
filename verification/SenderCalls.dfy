/**
 What each thread does over a run, told from the labels of the run and from where the thread stands at each:
 which calls it makes to Tx, the stream table and the writer, how often, and in which order.
 */
module SenderCalls {
  import opened Rtp
  import opened SenderProtocol
  import opened SenderTotals
  import opened SenderShutdown

  /** Label l runs the next action of thread t. */
  predicate Runs(s: State, l: Label, t: nat) {
    l.Go? && l.t == t < |s.threads|
  }

  /** A step in which thread t has no part leaves it as it is. */
  lemma OthersStay(s: State, l: Label, t: nat)
    requires Enabled(s, l) && t < |s.threads| && !Runs(s, l, t)
    requires l.Meet? ==> l.loop != t && l.sender != t
    ensures t < |Apply(s, l).threads| && Apply(s, l).threads[t] == s.threads[t]
  {
    if l.Go? {
      assert ActionOf(l.t, s, Apply(s, l));
    }
  }

  // ----- The send loop -----

  /** What a loop has done: iterations begun, by a receive or by the default; lengths of its queue read, and of
      them those not zero; questions to Tx.IsOkToTransmit, and of them those it allowed; dequeues, and of them
      those that got a packet; calls of writer.Write. */
  datatype Tally = Tally(iterations: nat, lengths: nat, nonempty: nat, asks: nat, allowed: nat, dequeues: nat,
                         packets: nat, writes: nat)

  const NOTHING := Tally(0, 0, 0, 0, 0, 0, 0, 0)

  function Plus(a: Tally, b: Tally): Tally {
    Tally(a.iterations + b.iterations, a.lengths + b.lengths, a.nonempty + b.nonempty, a.asks + b.asks,
          a.allowed + b.allowed, a.dequeues + b.dequeues, a.packets + b.packets, a.writes + b.writes)
  }

  /** What loop u does when label l is its step. */
  function TallyOf(s: State, l: Label, u: nat): Tally {
    if l.Meet? && l.loop == u then NOTHING.(iterations := 1)
    else if Runs(s, l, u) && s.threads[u].Loop? then
      var th := s.threads[u];
      var full := Count(th.sid < |s.streams| && s.streams[th.sid].queue != []);
      match th.lpc
      case AtSelect => NOTHING.(iterations := Count(!s.closed))
      case AtSize => NOTHING.(lengths := 1, nonempty := full)
      case InOk => NOTHING.(asks := 1, allowed := Count(l.ok))
      case AtDequeue => NOTHING.(dequeues := 1, packets := full)
      case AtWrite => NOTHING.(writes := 1)
      case _ => NOTHING
    else NOTHING
  }

  /** What loop u does during a run. */
  function Done(s: State, ls: seq<Label>, u: nat): Tally
    requires Trace(s, ls)
    decreases |ls|
  {
    if ls == [] then NOTHING else Plus(TallyOf(s, ls[0], u), Done(Apply(s, ls[0]), ls[1..], u))
  }

  function Is(th: Thread, pcs: set<LoopPc>): nat {
    Count(th.Loop? && th.lpc in pcs)
  }

  /** Up to what is under way in th and in th': one length read per iteration, one question per length that is
      not zero, one dequeue per positive answer and none otherwise, one write per packet dequeued. */
  predicate Balanced(done: Tally, th: Thread, th': Thread)
    requires th.Loop? && th'.Loop?
  {
    && done.lengths + Is(th', {AtSize}) == done.iterations + Is(th, {AtSize})
    && done.asks + Is(th', {AtOkLock, InOk}) == done.nonempty + Is(th, {AtOkLock, InOk})
    && done.dequeues + Is(th', {AtDequeue}) == done.allowed + Is(th, {AtDequeue})
    && done.writes + Is(th', {AtWrite}) == done.packets + Is(th, {AtWrite})
    && |th'.written| == |th.written| + done.writes
    && done.packets <= done.dequeues
  }

  lemma BalancedPlus(a: Tally, b: Tally, th: Thread, th1: Thread, th2: Thread)
    requires th.Loop? && th1.Loop? && th2.Loop? && Balanced(a, th, th1) && Balanced(b, th1, th2)
    ensures Balanced(Plus(a, b), th, th2)
  {
  }

  lemma LoopGoBalanced(s: State, u: nat, ok: bool)
    requires Safe(s) && u < |s.threads| && s.threads[u].Loop? && CanGo(s, s.threads[u])
    ensures u < |LoopGo(s, u, ok).threads| && LoopGo(s, u, ok).threads[u].Loop?
    ensures Balanced(TallyOf(s, Go(u, ok), u), s.threads[u], LoopGo(s, u, ok).threads[u])
  {
    assert StreamsOk(s, s.threads[u]);
  }

  lemma StepBalanced(s: State, l: Label, u: nat)
    requires Safe(s) && Enabled(s, l) && u < |s.threads| && s.threads[u].Loop?
    ensures u < |Apply(s, l).threads| && Apply(s, l).threads[u].Loop?
    ensures Balanced(TallyOf(s, l, u), s.threads[u], Apply(s, l).threads[u])
  {
    if Runs(s, l, u) {
      LoopGoBalanced(s, u, l.ok);
    } else if !(l.Meet? && l.loop == u) {
      OthersStay(s, l, u);
    }
  }

  /** In every run a loop does its work as often as it is due and no more: it sends exactly when Tx allows. */
  lemma {:induction false} LoopDoesItsWork(s: State, ls: seq<Label>, u: nat)
    requires Safe(s) && Trace(s, ls) && u < |s.threads| && s.threads[u].Loop?
    ensures u < |After(s, ls).threads| && After(s, ls).threads[u].Loop?
    ensures Balanced(Done(s, ls, u), s.threads[u], After(s, ls).threads[u])
    decreases |ls|
  {
    if ls == [] {
    } else {
      var s' := Apply(s, ls[0]);
      StepBalanced(s, ls[0], u);
      SafeKept(s, ls[0]);
      LoopDoesItsWork(s', ls[1..], u);
      BalancedPlus(TallyOf(s, ls[0], u), Done(s', ls[1..], u), s.threads[u], s'.threads[u], After(s, ls).threads[u]);
    }
  }

  /** So a new loop never writes more packets than Tx has allowed it, a packet in its hand included. */
  lemma WritesAreAllowed(s: State, ls: seq<Label>, u: nat, ssrc: Ssrc)
    requires Safe(s) && Trace(s, ls) && u < |s.threads| && s.threads[u] == NewLoop(ssrc)
    ensures u < |After(s, ls).threads| && After(s, ls).threads[u].Loop?
    ensures |After(s, ls).threads[u].written| + Is(After(s, ls).threads[u], {AtWrite}) <= Done(s, ls, u).allowed
  {
    LoopDoesItsWork(s, ls, u);
  }

  // ----- The writer closure -----

  /** How often a run has sender p received from. */
  function Receives(ls: seq<Label>, p: nat): nat {
    if ls == [] then 0 else Count(ls[0].Meet? && ls[0].sender == p) + Receives(ls[1..], p)
  }

  /** The packet, whatever its identity. */
  predicate SamePacket(p: Packet, q: Packet) {
    p.size == q.size && p.seqNr == q.seqNr && p.marker == q.marker
  }

  /** What the writer closure p has done with the packet it was called with. */
  predicate HasEnqueued(s: State, p: nat, sid: nat, packet: Packet) {
    && p < |s.threads| && s.threads[p].Producer? && s.threads[p].sid == sid
    && SamePacket(s.threads[p].hand, packet)
    && (!s.threads[p].ppc.AtEnqueue? ==> sid < |s.streams| && s.threads[p].hand in s.streams[sid].enqueued)
  }

  lemma EnqueuedGrows(s: State, l: Label, sid: nat)
    requires Enabled(s, l) && sid < |s.streams|
    ensures sid < |Apply(s, l).streams| && s.streams[sid].enqueued <= Apply(s, l).streams[sid].enqueued
  {
    if l.Go? {
      assert ActionOf(l.t, s, Apply(s, l));
    }
  }

  lemma WriterStep(s: State, l: Label, p: nat, sid: nat, packet: Packet)
    requires Safe(s) && Enabled(s, l) && HasEnqueued(s, p, sid, packet)
    ensures HasEnqueued(Apply(s, l), p, sid, packet)
    ensures Count(l.Meet? && l.sender == p) + Count(!Apply(s, l).threads[p].ppc.ProducerDone?)
            == Count(!s.threads[p].ppc.ProducerDone?)
  {
    assert StreamsOk(s, s.threads[p]);
    EnqueuedGrows(s, l, sid);
    if Runs(s, l, p) {
      assert ActionOf(p, s, Apply(s, l));
    } else if !(l.Meet? && l.sender == p) {
      OthersStay(s, l, p);
    }
  }

  /** Over any run, a writer closure puts the packet it was called with on its stream's queue, and returns by
      the one receive of its signal. */
  lemma {:induction false} WriterSignalsOnce(s: State, ls: seq<Label>, p: nat, sid: nat, packet: Packet)
    requires Safe(s) && Trace(s, ls) && HasEnqueued(s, p, sid, packet)
    ensures HasEnqueued(After(s, ls), p, sid, packet)
    ensures Receives(ls, p) + Count(!After(s, ls).threads[p].ppc.ProducerDone?)
            == Count(!s.threads[p].ppc.ProducerDone?)
    decreases |ls|
  {
    if ls == [] {
    } else {
      WriterStep(s, ls[0], p, sid, packet);
      SafeKept(s, ls[0]);
      WriterSignalsOnce(Apply(s, ls[0]), ls[1..], p, sid, packet);
    }
  }

  // ----- The feedback reader -----

  /** What a feedback reader asks of the others: a call of IncomingStandardizedFeedback, made while it owns `m`,
      or a lookup in the stream table. */
  datatype Request = Feed | LookUp(ssrc: Ssrc)

  function LookUps(ssrcs: seq<Ssrc>): seq<Request> {
    if ssrcs == [] then [] else [LookUp(ssrcs[0])] + LookUps(ssrcs[1..])
  }

  /** What a compound asks for: for each raw packet one call of Tx, and then a lookup of each of its SSRCs. */
  function RequestsFor(rest: seq<Rtcp>): seq<Request> {
    if rest == [] then []
    else (if rest[0].Raw? then [Feed] + LookUps(rest[0].ssrcs) else []) + RequestsFor(rest[1..])
  }

  /** What reader th has yet to ask for. */
  function StillToMake(th: Thread): seq<Request>
    requires th.Reader?
  {
    match th.rpc
    case AtNext => RequestsFor(th.rest)
    case AtFeedbackLock => [Feed] + LookUps(th.ssrcs) + RequestsFor(th.rest)
    case InFeedback => [Feed] + LookUps(th.ssrcs) + RequestsFor(th.rest)
    case AtStream => [LookUp(th.current)] + LookUps(th.ssrcs) + RequestsFor(th.rest)
    case ReaderDone => []
    case _ => LookUps(th.ssrcs) + RequestsFor(th.rest)
  }

  /** The request that label l has reader r make. */
  function RequestOf(s: State, l: Label, r: nat): seq<Request> {
    if !Runs(s, l, r) || !s.threads[r].Reader? then []
    else if s.threads[r].rpc.InFeedback? && s.m == Some(r) then [Feed]
    else if s.threads[r].rpc.AtStream? && s.streamsMu == Some(r) then [LookUp(s.threads[r].current)]
    else []
  }

  /** The requests of reader r during a run. */
  function Requests(s: State, ls: seq<Label>, r: nat): seq<Request>
    requires Trace(s, ls)
    decreases |ls|
  {
    if ls == [] then [] else RequestOf(s, ls[0], r) + Requests(Apply(s, ls[0]), ls[1..], r)
  }

  /** A reader takes its packets, and the SSRCs of each, one after the other from the front. */
  predicate ReaderCarries(th: Thread, th': Thread)
    requires th.Reader? && th'.Reader?
  {
    match th.rpc
    case AtNext =>
      && th.rest == (if th.rest == [] then [] else [th.rest[0]]) + th'.rest
      && (th'.rpc.AtFeedbackLock? && th.rest != [] ==> th.rest[0] == Raw(th'.ssrcs))
    case AtSsrc => th.ssrcs == (if th'.rpc.AtStream? then [th'.current] else []) + th'.ssrcs && th'.rest == th.rest
    case _ => th'.ssrcs == th.ssrcs && th'.rest == th.rest
  }

  lemma ReaderGoCarries(s: State, t: nat)
    requires t < |s.threads| && s.threads[t].Reader? && CanGo(s, s.threads[t])
    ensures t < |ReaderGo(s, t).threads| && ReaderGo(s, t).threads[t].Reader?
    ensures ReaderCarries(s.threads[t], ReaderGo(s, t).threads[t])
  {
  }

  lemma ReaderAsks(s: State, th: Thread, th': Thread)
    requires th.Reader? && th'.Reader? && ReaderEdge(s, th, th'.rpc) && ReaderCarries(th, th')
    ensures StillToMake(th)
            == (if th.rpc.InFeedback? then [Feed] else if th.rpc.AtStream? then [LookUp(th.current)] else [])
               + StillToMake(th')
  {
  }

  lemma RequestStep(s: State, l: Label, r: nat)
    requires Safe(s) && Enabled(s, l) && r < |s.threads| && s.threads[r].Reader?
    ensures r < |Apply(s, l).threads| && Apply(s, l).threads[r].Reader?
    ensures StillToMake(s.threads[r]) == RequestOf(s, l, r) + StillToMake(Apply(s, l).threads[r])
  {
    if Runs(s, l, r) {
      assert HoldsM(s.threads[r]) <==> s.m == Some(r);
      assert HoldsStreamsMu(s.threads[r]) <==> s.streamsMu == Some(r);
      ReaderGoCarries(s, r);
      ReaderAsks(s, s.threads[r], ReaderGo(s, r).threads[r]);
    } else if !(l.Meet? && l.sender == r) {
      OthersStay(s, l, r);
    }
  }

  lemma Reassociate(a: seq<Request>, b: seq<Request>, c: seq<Request>)
    ensures a + (b + c) == a + b + c
  {
  }

  /** In every run a feedback reader makes exactly the requests of its compound, in order and each once: for
      every raw packet it hands feedback to Tx, under `m`, and then looks up, under rtpStreamsMu, each SSRC of
      that packet. */
  lemma {:induction false} ReaderMakesEveryRequest(s: State, ls: seq<Label>, r: nat)
    requires Safe(s) && Trace(s, ls) && r < |s.threads| && s.threads[r].Reader?
    ensures r < |After(s, ls).threads| && After(s, ls).threads[r].Reader?
    ensures StillToMake(s.threads[r]) == Requests(s, ls, r) + StillToMake(After(s, ls).threads[r])
    decreases |ls|
  {
    if ls == [] {
    } else {
      var s' := Apply(s, ls[0]);
      RequestStep(s, ls[0], r);
      SafeKept(s, ls[0]);
      ReaderMakesEveryRequest(s', ls[1..], r);
      Reassociate(RequestOf(s, ls[0], r), Requests(s', ls[1..], r), StillToMake(After(s, ls).threads[r]));
    }
  }

  /** Label l has reader r find the stream it looks up. */
  predicate Finds(s: State, l: Label, r: nat) {
    && Runs(s, l, r) && s.threads[r].Reader? && s.threads[r].rpc.AtStream?
    && s.threads[r].current in s.table
  }

  function Found(s: State, ls: seq<Label>, r: nat): nat
    requires Trace(s, ls)
    decreases |ls|
  {
    if ls == [] then 0 else Count(Finds(s, ls[0], r)) + Found(Apply(s, ls[0]), ls[1..], r)
  }

  predicate OwesSignal(th: Thread) {
    th.Reader? && (th.rpc.AtSignal? || th.rpc.ReaderParked?)
  }

  lemma SignalStep(s: State, l: Label, r: nat)
    requires Enabled(s, l) && r < |s.threads| && s.threads[r].Reader?
    ensures r < |Apply(s, l).threads| && Apply(s, l).threads[r].Reader?
    ensures Count(l.Meet? && l.sender == r) + Count(OwesSignal(Apply(s, l).threads[r]))
            == Count(Finds(s, l, r)) + Count(OwesSignal(s.threads[r]))
  {
    if !Runs(s, l, r) && !(l.Meet? && l.sender == r) {
      OthersStay(s, l, r);
    }
  }

  /** Over any run, up to one under way at its ends, each stream a reader finds is signalled once. */
  lemma {:induction false} ReaderSignalsWhatItFinds(s: State, ls: seq<Label>, r: nat)
    requires Trace(s, ls) && r < |s.threads| && s.threads[r].Reader?
    ensures r < |After(s, ls).threads| && After(s, ls).threads[r].Reader?
    ensures Receives(ls, r) + Count(OwesSignal(After(s, ls).threads[r]))
            == Found(s, ls, r) + Count(OwesSignal(s.threads[r]))
    decreases |ls|
  {
    if ls == [] {
    } else {
      SignalStep(s, ls[0], r);
      ReaderSignalsWhatItFinds(Apply(s, ls[0]), ls[1..], r);
    }
  }

  // ----- Bind and GetTargetBitrate -----

  datatype CallDeed =
    | Saw(closed: bool)       // Bind reads the close channel
    | Stored                  // Bind puts its stream into the table
    | Registered              // Bind calls Tx.RegisterNewStream
    | StartedLoop             // Bind starts the loop
    | LookedUp(known: bool)   // GetTargetBitrate looks its SSRC up
    | AskedTarget             // GetTargetBitrate calls Tx.GetTargetBitrate

  /** What label l has the call t do. */
  function CallDeedOf(s: State, l: Label, t: nat): seq<CallDeed> {
    if !Runs(s, l, t) then []
    else
      match s.threads[t]
      case Binder(pc, ssrc) =>
        if pc.AtCheck? then [Saw(s.closed)]
        else if s.streamsMu == Some(t) then [Stored]
        else if pc.InRegister? && s.m == Some(t) then [Registered]
        else if Started(s.threads[t]) != [] then [StartedLoop]
        else []
      case Getter(pc, ssrc) =>
        if s.streamsMu == Some(t) then [LookedUp(ssrc in s.table)]
        else if s.m == Some(t) then [AskedTarget]
        else []
      case _ => []
  }

  /** What call t does during a run. */
  function CallDeeds(s: State, ls: seq<Label>, t: nat): seq<CallDeed>
    requires Trace(s, ls)
    decreases |ls|
  {
    if ls == [] then [] else CallDeedOf(s, ls[0], t) + CallDeeds(Apply(s, ls[0]), ls[1..], t)
  }

  /** What a call has done since it was made, at each place it can have got to. */
  predicate HasDone(th: Thread, ds: seq<CallDeed>) {
    match th
    case Binder(pc, _) =>
      (match pc
       case AtBindLock => ds == []
       case AtCheck => ds == []
       case AtTableLock => ds == [Saw(false)]
       case AtStore => ds == [Saw(false)]
       case InRegister => ds == [Saw(false), Stored]
       case AtGo => ds == [Saw(false), Stored, Registered]
       case AtBindUnlock => ds == [Saw(false), Stored, Registered, StartedLoop]
       case BinderDone => ds == [Saw(true)] || ds == [Saw(false), Stored, Registered, StartedLoop])
    case Getter(pc, _) =>
      (match pc
       case AtGetStreamsLock => ds == []
       case AtGetLookup => ds == []
       case AtGetLock => ds == [LookedUp(true)]
       case InGet => ds == [LookedUp(true)]
       case GetterDone => ds == [LookedUp(false)] || ds == [LookedUp(true), AskedTarget])
    case _ => false
  }

  lemma CallStep(s: State, l: Label, t: nat, ds: seq<CallDeed>)
    requires Safe(s) && Enabled(s, l) && t < |s.threads| && HasDone(s.threads[t], ds)
    ensures t < |Apply(s, l).threads| && HasDone(Apply(s, l).threads[t], ds + CallDeedOf(s, l, t))
  {
    if Runs(s, l, t) {
      assert HoldsM(s.threads[t]) <==> s.m == Some(t);
      assert HoldsStreamsMu(s.threads[t]) <==> s.streamsMu == Some(t);
    } else {
      OthersStay(s, l, t);
      assert ds + [] == ds;
    }
  }

  lemma ReassociateDeeds(a: seq<CallDeed>, b: seq<CallDeed>, c: seq<CallDeed>)
    ensures a + (b + c) == a + b + c
  {
  }

  /** In every run a Bind that finds the channel open stores its stream, tells Tx and starts one loop, in this
      order, and one that finds it closed does nothing; a GetTargetBitrate asks Tx exactly when the table holds
      its SSRC at its lookup. */
  lemma {:induction false} CallsDoTheirWork(s: State, ls: seq<Label>, t: nat, ds: seq<CallDeed>)
    requires Safe(s) && Trace(s, ls) && t < |s.threads| && HasDone(s.threads[t], ds)
    ensures t < |After(s, ls).threads| && HasDone(After(s, ls).threads[t], ds + CallDeeds(s, ls, t))
    decreases |ls|
  {
    if ls == [] {
      assert ds + [] == ds;
    } else {
      var d := CallDeedOf(s, ls[0], t);
      CallStep(s, ls[0], t, ds);
      SafeKept(s, ls[0]);
      CallsDoTheirWork(Apply(s, ls[0]), ls[1..], t, ds + d);
      ReassociateDeeds(ds, d, CallDeeds(Apply(s, ls[0]), ls[1..], t));
    }
  }
}
