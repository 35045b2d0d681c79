/**
 Quantities added up over all threads, and how one step changes them. The invariants of the sender count
 threads and bytes with these totals.
 */
module SenderTotals {
  import opened Rtp
  import opened SenderProtocol

  datatype Weight =
    | Unfinished                    // loops not yet finished, counting one a Bind is about to start
    | Loops                         // loops ever started
    | Writes                        // packets handed to writer.Write
    | Sends                         // sends on newFeedback still to come
    | Work                          // bound on the actions left before every thread is done or at its select
    | Place(sid: nat, p: Packet)    // occurrences of p written by, or in the hand of, a loop serving sid
    | Announcing(sid: nat)          // bytes enqueued on sid but not yet announced to Tx
    | InFlight(sid: nat)            // bytes dequeued from sid but not yet reported to Tx
    | Sizing(sid: nat)              // loops serving sid that are about to read the queue's length
    | Dequeuing(sid: nat)           // loops serving sid that are about to dequeue

  /** A binder between wg.Add and its go statement. */
  predicate Launching(th: Thread) {
    th.Binder? && (th.bpc.AtTableLock? || th.bpc.AtStore? || th.bpc.InRegister? || th.bpc.AtGo?)
  }

  predicate HasHand(th: Thread) {
    th.Loop? && (th.lpc.AtWrite? || th.lpc.AtAddLock? || th.lpc.InAdd?)
  }

  function Count(b: bool): nat {
    if b then 1 else 0
  }

  function SendsIn(rest: seq<Rtcp>): nat {
    if rest == [] then 0
    else (if rest[0].Raw? then |rest[0].ssrcs| else 0) + SendsIn(rest[1..])
  }

  function SendsOf(th: Thread): nat {
    match th
    case Producer(pc, _, _) => Count(!pc.ProducerDone?)
    case Reader(pc, _, _, ssrcs, rest) =>
      (match pc
       case AtNext => SendsIn(rest)
       case ReaderDone => 0
       case AtStream => 1 + |ssrcs| + SendsIn(rest)
       case AtSignal => 1 + |ssrcs| + SendsIn(rest)
       case ReaderParked => 1 + |ssrcs| + SendsIn(rest)
       case _ => |ssrcs| + SendsIn(rest))
    case _ => 0
  }

  function WorkIn(rest: seq<Rtcp>): nat {
    if rest == [] then 1
    else (if rest[0].Raw? then 12 * |rest[0].ssrcs| + 4 else 1) + WorkIn(rest[1..])
  }

  /** Each action of a thread lowers its work; a send is worth the loop iteration it starts. */
  function WorkOf(th: Thread): nat {
    match th
    case Loop(pc, _, _, _, _, _) =>
      (match pc
       case AtLookupLock => 3
       case AtLookup => 2
       case AtSelect => 1
       case AtSize => 8
       case AtOkLock => 7
       case InOk => 6
       case AtDequeue => 5
       case AtWrite => 4
       case AtAddLock => 3
       case InAdd => 2
       case LoopDone => 0)
    case Producer(pc, _, _) =>
      (match pc
       case AtEnqueue => 12
       case AtAnnounceLock => 11
       case InAnnounce => 10
       case AtSend => 9
       case ProducerParked => 8
       case ProducerDone => 0)
    case Reader(pc, _, _, ssrcs, rest) =>
      (match pc
       case AtNext => WorkIn(rest)
       case AtFeedbackLock => WorkIn(rest) + 12 * |ssrcs| + 3
       case InFeedback => WorkIn(rest) + 12 * |ssrcs| + 2
       case AtSsrc => WorkIn(rest) + 12 * |ssrcs| + 1
       case AtStream => WorkIn(rest) + 12 * |ssrcs| + 12
       case AtSignal => WorkIn(rest) + 12 * |ssrcs| + 11
       case ReaderParked => WorkIn(rest) + 12 * |ssrcs| + 10
       case AtStreamsUnlock => WorkIn(rest) + 12 * |ssrcs| + 2
       case ReaderDone => 0)
    case Binder(pc, _) =>
      (match pc
       case AtBindLock => 10
       case AtCheck => 9
       case AtTableLock => 8
       case AtStore => 7
       case InRegister => 6
       case AtGo => 5
       case AtBindUnlock => 1
       case BinderDone => 0)
    case Closer(pc) =>
      (match pc
       case AtCloseLock => 3
       case AtClose => 2
       case AtWait => 1
       case CloserDone => 0)
    case Getter(pc, _) =>
      (match pc
       case AtGetStreamsLock => 4
       case AtGetLookup => 3
       case AtGetLock => 2
       case InGet => 1
       case GetterDone => 0)
  }

  function WeightOf(w: Weight, th: Thread): nat {
    match w
    case Unfinished => Count((th.Loop? && !th.lpc.LoopDone?) || Launching(th))
    case Loops => Count(th.Loop?)
    case Writes => if th.Loop? then |th.written| else 0
    case Sends => SendsOf(th)
    case Work => WorkOf(th)
    case Place(sid, p) =>
      if th.Loop? && th.sid == sid then multiset(th.written)[p] + Count(th.lpc.AtWrite? && th.hand == p) else 0
    case Announcing(sid) =>
      if th.Producer? && th.sid == sid && (th.ppc.AtAnnounceLock? || th.ppc.InAnnounce?) then th.hand.size else 0
    case InFlight(sid) => if HasHand(th) && th.sid == sid then th.hand.size else 0
    case Sizing(sid) => Count(th.Loop? && th.sid == sid && th.lpc.AtSize?)
    case Dequeuing(sid) => Count(th.Loop? && th.sid == sid && th.lpc.AtDequeue?)
  }

  function Total(w: Weight, ths: seq<Thread>): nat {
    if ths == [] then 0 else Total(w, ths[..|ths| - 1]) + WeightOf(w, ths[|ths| - 1])
  }

  lemma {:induction false} TotalUpdate(w: Weight, ths: seq<Thread>, t: nat, th: Thread)
    requires t < |ths|
    ensures Total(w, ths[t := th]) + WeightOf(w, ths[t]) == Total(w, ths) + WeightOf(w, th)
  {
    var n := |ths| - 1;
    if t == n {
      assert ths[t := th][..n] == ths[..n];
    } else {
      assert ths[t := th][..n] == ths[..n][t := th];
      TotalUpdate(w, ths[..n], t, th);
    }
  }

  lemma TotalAppend(w: Weight, ths: seq<Thread>, th: Thread)
    ensures Total(w, ths + [th]) == Total(w, ths) + WeightOf(w, th)
  {
    assert (ths + [th])[..|ths|] == ths;
  }

  lemma TotalConcat(w: Weight, ths: seq<Thread>, more: seq<Thread>)
    requires |more| <= 1
    ensures Total(w, ths + more) == Total(w, ths) + Total(w, more)
  {
    if more == [] {
      assert ths + more == ths;
    } else {
      assert (ths + more)[..|ths|] == ths;
    }
  }

  lemma {:induction false} TotalBound(w: Weight, ths: seq<Thread>, t: nat)
    requires t < |ths|
    ensures WeightOf(w, ths[t]) <= Total(w, ths)
  {
    if t == |ths| - 1 {
    } else {
      TotalBound(w, ths[..|ths| - 1], t);
    }
  }

  lemma {:induction false} TotalZero(w: Weight, ths: seq<Thread>)
    requires forall t | 0 <= t < |ths| :: WeightOf(w, ths[t]) == 0
    ensures Total(w, ths) == 0
  {
    if ths == [] {
    } else {
      TotalZero(w, ths[..|ths| - 1]);
    }
  }

  /** The total after one action of thread t. */
  lemma GoTotal(w: Weight, s: State, t: nat, s': State)
    requires t < |s.threads| && ActionOf(t, s, s')
    ensures Total(w, s'.threads) + WeightOf(w, s.threads[t])
            == Total(w, s.threads) + WeightOf(w, s'.threads[t]) + Total(w, Started(s.threads[t]))
  {
    var th' := s'.threads[t];
    TotalUpdate(w, s.threads, t, th');
    TotalConcat(w, s.threads[t := th'], Started(s.threads[t]));
  }

  /** The total after a loop receives from a parked sender. */
  lemma MeetTotal(w: Weight, s: State, u: nat, p: nat)
    requires Enabled(s, Meet(u, p))
    ensures var s' := Apply(s, Meet(u, p));
      && u != p && |s'.threads| == |s.threads|
      && Total(w, s'.threads) + WeightOf(w, s.threads[u]) + WeightOf(w, s.threads[p])
         == Total(w, s.threads) + WeightOf(w, s'.threads[u]) + WeightOf(w, s'.threads[p])
  {
    var th := s.threads[u].(lpc := AtSize);
    TotalUpdate(w, s.threads, u, th);
    TotalUpdate(w, s.threads[u := th], p, Received(s.threads[p]));
  }
}
