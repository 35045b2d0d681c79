/**
 Which waits in the sender can still end: exactly when rtpStreamsMu can be free again, and exactly which parked
 senders can still be received from.
 */
module SenderWaiting {
  import opened Rtp
  import opened SenderProtocol
  import opened SenderTotals
  import opened SenderShutdown
  import opened SenderProgress

  // ----- Loops that cannot come back to their select -----

  /** A loop past its lookup that has not finished and serves stream sid. */
  predicate Serves(th: Thread, sid: nat) {
    PastLookup(th) && !th.lpc.LoopDone? && th.sid == sid
  }

  /** `m` is held by a Bind that waits for rtpStreamsMu, or is about to. */
  predicate BindKeepsM(s: State) {
    && s.m.Some? && s.m.value < |s.threads| && s.threads[s.m.value].Binder?
    && var pc := s.threads[s.m.value].bpc;
       pc.AtTableLock? || (pc.AtCheck? && !s.closed)
  }

  /** Without `m`, the loops serving sid can get back to their select only by finding the queue empty: those
      about to dequeue take one packet each and then wait for `m`, so there must be more of them than packets, or
      as many and one that reads the length after them. */
  predicate QueueTooLong(s: State, sid: nat) {
    && sid < |s.streams|
    && (forall u | 0 <= u < |s.threads| :: !AtSelectOn(s.threads[u], sid))
    && Total(Dequeuing(sid), s.threads) <= |s.streams[sid].queue|
    && (Total(Sizing(sid), s.threads) == 0 || Total(Dequeuing(sid), s.threads) < |s.streams[sid].queue|)
  }

  /** As long as rtpStreamsMu is not free, no loop will receive from a sender on sid. */
  predicate LostFor(s: State, sid: nat) {
    || (forall u | 0 <= u < |s.threads| :: !Serves(s.threads[u], sid))
    || (BindKeepsM(s) && QueueTooLong(s, sid))
  }

  /** The stream on which a reader sends, or is going to send, before it gives rtpStreamsMu back. */
  function Aim(s: State, th: Thread): Option<nat> {
    if !th.Reader? then None
    else if th.rpc.AtStream? && th.current in s.table then Some(s.table[th.current])
    else if th.rpc.AtSignal? || th.rpc.ReaderParked? then Some(th.sid)
    else None
  }

  predicate Aiming(s: State) {
    s.streamsMu.Some? && s.streamsMu.value < |s.threads| && Aim(s, s.threads[s.streamsMu.value]).Some?
  }

  /** rtpStreamsMu is held by a reader whose send will not be received. */
  predicate StreamsMuLost(s: State) {
    Aiming(s) && LostFor(s, Aim(s, s.threads[s.streamsMu.value]).value)
  }

  // ----- What is lost stays lost -----

  lemma NobodyServesKept(s: State, l: Label, sid: nat)
    requires Safe(s) && Enabled(s, l) && Aiming(s)
    requires forall u | 0 <= u < |s.threads| :: !Serves(s.threads[u], sid)
    ensures forall u | 0 <= u < |Apply(s, l).threads| :: !Serves(Apply(s, l).threads[u], sid)
  {
    match l
    case Call(_) =>
    case Clear(_, _) =>
    case Meet(_, _) =>
    case Go(t, ok) =>
      assert ActionOf(t, s, Apply(s, l));
  }

  lemma BindKeepsMKept(s: State, l: Label)
    requires Safe(s) && Enabled(s, l) && Aiming(s) && BindKeepsM(s)
    ensures BindKeepsM(Apply(s, l))
  {
    match l
    case Call(_) =>
    case Clear(_, _) =>
    case Meet(_, _) =>
    case Go(t, ok) =>
      assert ActionOf(t, s, Apply(s, l));
  }

  /** While a Bind keeps `m`, a loop dequeues at most once, and none comes back to its select. */
  lemma LoopsGoOn(s: State, t: nat, ok: bool, sid: nat)
    requires Safe(s) && Enabled(s, Go(t, ok)) && Aiming(s) && BindKeepsM(s) && QueueTooLong(s, sid)
    ensures var s' := Apply(s, Go(t, ok));
      && t < |s'.threads| && sid < |s'.streams| && Started(s.threads[t]) == []
      && !AtSelectOn(s'.threads[t], sid)
      && WeightOf(Sizing(sid), s'.threads[t]) <= WeightOf(Sizing(sid), s.threads[t])
      && WeightOf(Dequeuing(sid), s'.threads[t]) - |s'.streams[sid].queue|
         <= WeightOf(Dequeuing(sid), s.threads[t]) - |s.streams[sid].queue|
  {
    TotalBound(Sizing(sid), s.threads, t);
    TotalBound(Dequeuing(sid), s.threads, t);
    assert ActionOf(t, s, Apply(s, Go(t, ok)));
  }

  lemma QueueStaysTooLongByGo(s: State, t: nat, ok: bool, sid: nat)
    requires Safe(s) && Enabled(s, Go(t, ok)) && Aiming(s) && BindKeepsM(s) && QueueTooLong(s, sid)
    ensures QueueTooLong(Apply(s, Go(t, ok)), sid)
  {
    var s' := Apply(s, Go(t, ok));
    LoopsGoOn(s, t, ok, sid);
    assert ActionOf(t, s, s');
    GoTotal(Sizing(sid), s, t, s');
    GoTotal(Dequeuing(sid), s, t, s');
  }

  lemma QueueStaysTooLongByMeet(s: State, u: nat, p: nat, sid: nat)
    requires Safe(s) && Enabled(s, Meet(u, p)) && QueueTooLong(s, sid)
    ensures QueueTooLong(Apply(s, Meet(u, p)), sid)
  {
    MeetTotal(Sizing(sid), s, u, p);
    MeetTotal(Dequeuing(sid), s, u, p);
  }

  lemma QueueStaysTooLong(s: State, l: Label, sid: nat)
    requires Safe(s) && Enabled(s, l) && Aiming(s) && BindKeepsM(s) && QueueTooLong(s, sid)
    ensures QueueTooLong(Apply(s, l), sid)
  {
    match l
    case Call(th) =>
      TotalAppend(Sizing(sid), s.threads, th);
      TotalAppend(Dequeuing(sid), s.threads, th);
    case Clear(t, _) => assert HoldsM(s.threads[t]);
    case Meet(u, p) => QueueStaysTooLongByMeet(s, u, p, sid);
    case Go(t, ok) => QueueStaysTooLongByGo(s, t, ok, sid);
  }

  lemma LostForKept(s: State, l: Label, sid: nat)
    requires Safe(s) && Enabled(s, l) && Aiming(s) && LostFor(s, sid)
    ensures LostFor(Apply(s, l), sid)
  {
    if forall u | 0 <= u < |s.threads| :: !Serves(s.threads[u], sid) {
      NobodyServesKept(s, l, sid);
    } else {
      BindKeepsMKept(s, l);
      QueueStaysTooLong(s, l, sid);
    }
  }

  lemma AimKept(s: State, l: Label)
    requires Safe(s) && Enabled(s, l) && StreamsMuLost(s)
    ensures Apply(s, l).streamsMu == s.streamsMu && Aiming(Apply(s, l))
    ensures Aim(Apply(s, l), Apply(s, l).threads[s.streamsMu.value]) == Aim(s, s.threads[s.streamsMu.value])
  {
    assert HoldsStreamsMu(s.threads[s.streamsMu.value]);
    match l
    case Call(_) =>
    case Clear(_, _) =>
    case Meet(u, _) => assert AtSelectOn(s.threads[u], s.threads[u].sid) && Serves(s.threads[u], s.threads[u].sid);
    case Go(t, ok) =>
      assert ActionOf(t, s, Apply(s, l));
  }

  lemma StreamsMuLostKept(s: State, l: Label)
    requires Safe(s) && Enabled(s, l) && StreamsMuLost(s)
    ensures StreamsMuLost(Apply(s, l)) && Apply(s, l).streamsMu == s.streamsMu
  {
    AimKept(s, l);
    LostForKept(s, l, Aim(s, s.threads[s.streamsMu.value]).value);
  }

  /** Once lost, rtpStreamsMu stays with the same reader, whatever calls enter and whoever runs. */
  lemma {:induction false} StreamsMuLostForever(s: State, ls: seq<Label>)
    requires Safe(s) && Trace(s, ls) && StreamsMuLost(s)
    ensures StreamsMuLost(After(s, ls)) && After(s, ls).streamsMu == s.streamsMu
    decreases |ls|
  {
    if ls == [] {
    } else {
      StreamsMuLostKept(s, ls[0]);
      SafeKept(s, ls[0]);
      StreamsMuLostForever(Apply(s, ls[0]), ls[1..]);
    }
  }

  // ----- Parked senders -----

  predicate ParkedSender(s: State, p: nat) {
    p < |s.threads| && IsParked(s.threads[p])
  }

  /** A Bind is replacing the stream that the table holds for k. */
  predicate Replacing(s: State, k: Ssrc) {
    && s.m.Some? && s.m.value < |s.threads|
    && s.threads[s.m.value].Binder? && s.threads[s.m.value].bpc.AtStore? && s.threads[s.m.value].ssrc == k
  }

  /** A loop that will look a stream up, or a Bind that will start one. */
  predicate HasLookupAhead(th: Thread) {
    || (th.Loop? && (th.lpc.AtLookupLock? || th.lpc.AtLookup?))
    || (th.Binder? && (th.bpc.InRegister? || th.bpc.AtGo?))
  }

  /** th serves stream sid, or is on the way to it. */
  predicate WillServe(s: State, th: Thread, sid: nat) {
    || Serves(th, sid)
    || (HasLookupAhead(th) && th.ssrc in s.table && s.table[th.ssrc] == sid && !Replacing(s, th.ssrc))
  }

  /** Sender p is parked for loops that do not come: there is none and none on the way, or rtpStreamsMu is lost
      and those past their lookup cannot come back. */
  predicate Doomed(s: State, p: nat) {
    && ParkedSender(s, p)
    && var sid := s.threads[p].sid;
       || (forall u | 0 <= u < |s.threads| :: !WillServe(s, s.threads[u], sid))
       || (StreamsMuLost(s) && LostFor(s, sid))
  }

  /** No action brings a loop on the way to sid: a new stream is never an old one. */
  lemma NobodyWillServeKeptByGo(s: State, t: nat, ok: bool, sid: nat)
    requires Safe(s) && Enabled(s, Go(t, ok)) && sid < |s.streams|
    requires forall u | 0 <= u < |s.threads| :: !WillServe(s, s.threads[u], sid)
    ensures forall u | 0 <= u < |Apply(s, Go(t, ok)).threads| ::
              !WillServe(Apply(s, Go(t, ok)), Apply(s, Go(t, ok)).threads[u], sid)
  {
    var s' := Apply(s, Go(t, ok));
    assert ActionOf(t, s, s');
    assert !WillServe(s, s.threads[t], sid);
  }

  lemma NobodyWillServeKept(s: State, l: Label, sid: nat)
    requires Safe(s) && Enabled(s, l) && sid < |s.streams|
    requires forall u | 0 <= u < |s.threads| :: !WillServe(s, s.threads[u], sid)
    ensures forall u | 0 <= u < |Apply(s, l).threads| :: !WillServe(Apply(s, l), Apply(s, l).threads[u], sid)
  {
    match l
    case Call(_) =>
    case Clear(_, _) =>
    case Meet(_, _) =>
    case Go(t, ok) => NobodyWillServeKeptByGo(s, t, ok, sid);
  }

  /** Only a loop at its select can take a sender from where it is parked. */
  lemma StaysParkedUnlessMet(s: State, l: Label, p: nat)
    requires Enabled(s, l) && ParkedSender(s, p)
    requires l.Meet? ==> l.sender != p
    ensures ParkedSender(Apply(s, l), p) && Apply(s, l).threads[p] == s.threads[p]
  {
    if l.Go? {
      assert ActionOf(l.t, s, Apply(s, l));
    }
  }

  lemma DoomedKept(s: State, l: Label, p: nat)
    requires Safe(s) && Enabled(s, l) && Doomed(s, p)
    ensures Doomed(Apply(s, l), p) && Apply(s, l).threads[p] == s.threads[p]
  {
    var sid := s.threads[p].sid;
    assert StreamsOk(s, s.threads[p]);
    if l.Meet? && l.sender == p {
      assert Serves(s.threads[l.loop], sid) && AtSelectOn(s.threads[l.loop], sid);
      assert false;
    }
    StaysParkedUnlessMet(s, l, p);
    if forall u | 0 <= u < |s.threads| :: !WillServe(s, s.threads[u], sid) {
      NobodyWillServeKept(s, l, sid);
    } else {
      StreamsMuLostKept(s, l);
      LostForKept(s, l, sid);
    }
  }

  /** A doomed sender is parked for ever, whatever calls enter and whoever runs. */
  lemma {:induction false} DoomedForever(s: State, ls: seq<Label>, p: nat)
    requires Safe(s) && Trace(s, ls) && Doomed(s, p)
    ensures Doomed(After(s, ls), p) && After(s, ls).threads[p] == s.threads[p]
    decreases |ls|
  {
    if ls == [] {
    } else {
      DoomedKept(s, ls[0], p);
      SafeKept(s, ls[0]);
      DoomedForever(Apply(s, ls[0]), ls[1..], p);
    }
  }

  // ----- A step towards a receive -----

  lemma SomeThread(w: Weight, ths: seq<Thread>) returns (t: nat)
    requires Total(w, ths) > 0
    ensures t < |ths| && WeightOf(w, ths[t]) > 0
  {
    if forall k | 0 <= k < |ths| :: WeightOf(w, ths[k]) == 0 {
      TotalZero(w, ths);
    }
    t :| t < |ths| && WeightOf(w, ths[t]) > 0;
  }

  /** A step that loses no loop: none leaves its select, and no Bind is about to replace a stream. */
  predicate Gentle(s: State, l: Label) {
    || l.Meet?
    || (&& l.Go? && l.t < |s.threads|
        && !(s.threads[l.t].Loop? && s.threads[l.t].lpc.AtSelect?)
        && !(s.threads[l.t].Binder? && s.threads[l.t].bpc.AtTableLock?))
  }

  /** While `m` is free the loop u goes on, and otherwise whoever holds `m` until it gives it back. */
  function NextToRun(s: State, u: nat): nat {
    if s.m.Some? then s.m.value else u
  }

  lemma NextRuns(s: State, u: nat, sid: nat)
    requires Safe(s) && u < |s.threads| && Serves(s.threads[u], sid)
    requires !BindKeepsM(s) && !s.threads[u].lpc.AtSelect?
    ensures var l := Go(NextToRun(s, u), false);
      && Enabled(s, l) && Gentle(s, l)
      && !BindKeepsM(Apply(s, l)) && u < |Apply(s, l).threads| && Serves(Apply(s, l).threads[u], sid)
  {
    var t := NextToRun(s, u);
    assert StreamsOk(s, s.threads[t]);
    assert CanGo(s, s.threads[t]);
    assert ActionOf(t, s, Apply(s, Go(t, false)));
  }

  /** Some loop is about to read the length or to dequeue, and enough are to find the queue empty. */
  predicate QueueShort(s: State, sid: nat) {
    && sid < |s.streams|
    && (|| Total(Dequeuing(sid), s.threads) > |s.streams[sid].queue|
        || (Total(Sizing(sid), s.threads) > 0 && Total(Dequeuing(sid), s.threads) == |s.streams[sid].queue|))
  }

  /** The loop that goes next: one that is about to dequeue, or else one that finds the queue empty. */
  lemma NextConsumer(s: State, sid: nat) returns (t: nat)
    requires QueueShort(s, sid)
    ensures t < |s.threads| && s.threads[t].Loop? && s.threads[t].sid == sid
    ensures s.threads[t].lpc.AtDequeue? || (s.threads[t].lpc.AtSize? && s.streams[sid].queue == [])
  {
    t := SomeThread(if Total(Dequeuing(sid), s.threads) > 0 then Dequeuing(sid) else Sizing(sid), s.threads);
  }

  /** A loop about to dequeue, or to read the length of an empty queue, takes its packet or finds the queue
      empty. */
  lemma QueueGetsShorter(s: State, t: nat, sid: nat)
    requires Safe(s) && sid < |s.streams|
    requires t < |s.threads| && s.threads[t].Loop? && s.threads[t].sid == sid
    requires s.threads[t].lpc.AtDequeue? || (s.threads[t].lpc.AtSize? && s.streams[sid].queue == [])
    ensures Enabled(s, Go(t, false)) && Gentle(s, Go(t, false))
    ensures var s' := Apply(s, Go(t, false));
      && ActionOf(t, s, s') && sid < |s'.streams| && Serves(s'.threads[t], sid)
      && if s.streams[sid].queue == [] then AtSelectOn(s'.threads[t], sid)
         else s'.threads[t].lpc.AtWrite? && s'.streams[sid].queue == s.streams[sid].queue[1..]
  {
  }

  lemma QueueStaysShort(s: State, t: nat, sid: nat)
    requires Safe(s) && QueueShort(s, sid) && s.streams[sid].queue != []
    requires t < |s.threads| && s.threads[t].Loop? && s.threads[t].sid == sid && s.threads[t].lpc.AtDequeue?
    ensures Enabled(s, Go(t, false)) && QueueShort(Apply(s, Go(t, false)), sid)
  {
    QueueGetsShorter(s, t, sid);
    GoTotal(Sizing(sid), s, t, Apply(s, Go(t, false)));
    GoTotal(Dequeuing(sid), s, t, Apply(s, Go(t, false)));
  }

  /** Where a loop can come back, there is a step that brings one nearer. */
  lemma ComeNearer(s: State, sid: nat) returns (l: Label)
    requires Safe(s) && sid < |s.streams| && !LostFor(s, sid)
    requires forall u | 0 <= u < |s.threads| :: !AtSelectOn(s.threads[u], sid)
    ensures l.Go? && Enabled(s, l) && Gentle(s, l) && !LostFor(Apply(s, l), sid)
  {
    if !BindKeepsM(s) {
      var u: nat :| u < |s.threads| && Serves(s.threads[u], sid);
      NextRuns(s, u, sid);
      l := Go(NextToRun(s, u), false);
    } else {
      var t := NextConsumer(s, sid);
      QueueGetsShorter(s, t, sid);
      l := Go(t, false);
      if s.streams[sid].queue != [] {
        QueueStaysShort(s, t, sid);
      }
    }
  }

  /** A gentle step keeps a loop on the way to sid: the same one, or the one that a Bind starts. */
  lemma GentleKeepsServer(s: State, l: Label, t: nat, sid: nat) returns (t': nat)
    requires Safe(s) && Enabled(s, l) && Gentle(s, l) && t < |s.threads| && WillServe(s, s.threads[t], sid)
    ensures t' < |Apply(s, l).threads| && WillServe(Apply(s, l), Apply(s, l).threads[t'], sid)
  {
    t' := t;
    if l.Go? {
      var s' := Apply(s, l);
      assert ActionOf(l.t, s, s');
      assert StreamsOk(s, s.threads[t]);
      if l.t == t && s.threads[t].Binder? && s.threads[t].bpc.AtGo? {
        t' := |s.threads|;
        assert s'.threads[t'] == NewLoop(s.threads[t].ssrc);
      }
    }
  }

  // ----- When rtpStreamsMu can be free again -----

  lemma HolderGoes(s: State)
    requires Safe(s) && s.streamsMu.Some? && !Aiming(s)
    ensures var l := Go(s.streamsMu.value, false);
      Enabled(s, l) && Gentle(s, l) && Apply(s, l).streamsMu.None?
  {
    var h := s.streamsMu.value;
    assert HoldsStreamsMu(s.threads[h]) && StreamsOk(s, s.threads[h]);
    assert ActionOf(h, s, Apply(s, Go(h, false)));
  }

  /** A reader's step that does not touch `m` changes nothing for the loops. */
  lemma LostForByReader(s: State, h: nat, s': State, sid: nat)
    requires Safe(s) && h < |s.threads| && ActionOf(h, s, s')
    requires s.threads[h].Reader? && s'.threads[h].Reader? && s'.m == s.m && s'.closed == s.closed
    ensures LostFor(s', sid) ==> LostFor(s, sid)
  {
    GoTotal(Sizing(sid), s, h, s');
    GoTotal(Dequeuing(sid), s, h, s');
    assert forall u | 0 <= u < |s.threads| && u != h :: s'.threads[u] == s.threads[u];
  }

  lemma AimingHolderGoes(s: State)
    requires Safe(s) && Aiming(s) && !StreamsMuLost(s) && !s.threads[s.streamsMu.value].rpc.ReaderParked?
    ensures var l := Go(s.streamsMu.value, false);
      Enabled(s, l) && Gentle(s, l) && !StreamsMuLost(Apply(s, l))
  {
    var h := s.streamsMu.value;
    var s' := Apply(s, Go(h, false));
    assert ActionOf(h, s, s');
    LostForByReader(s, h, s', Aim(s, s.threads[h]).value);
  }

  lemma AimOfOther(s: State, l: Label)
    requires Safe(s) && Aiming(s) && Enabled(s, l) && l.Go? && l.t != s.streamsMu.value
    requires s.threads[s.streamsMu.value].rpc.ReaderParked?
    ensures var s' := Apply(s, l);
      s'.streamsMu == s.streamsMu && s.streamsMu.value < |s'.threads|
      && s'.threads[s.streamsMu.value] == s.threads[s.streamsMu.value]
  {
    assert ActionOf(l.t, s, Apply(s, l));
  }

  /** While rtpStreamsMu is held and not lost, there is a step towards its being free. */
  lemma StepToFree(s: State) returns (l: Label)
    requires Safe(s) && s.streamsMu.Some? && !StreamsMuLost(s)
    ensures (l.Go? || l.Meet?) && Enabled(s, l) && Gentle(s, l) && !StreamsMuLost(Apply(s, l))
  {
    var h := s.streamsMu.value;
    l := Go(h, false);
    if !Aiming(s) {
      HolderGoes(s);
    } else if !s.threads[h].rpc.ReaderParked? {
      AimingHolderGoes(s);
    } else {
      var sid := s.threads[h].sid;
      assert StreamsOk(s, s.threads[h]);
      if v: nat :| v < |s.threads| && AtSelectOn(s.threads[v], sid) {
        l := Meet(v, h);
        assert Apply(s, l).threads[h].rpc.AtStreamsUnlock?;
      } else {
        l := ComeNearer(s, sid);
        AimOfOther(s, l);
      }
    }
  }

  lemma GentleWork(s: State, l: Label)
    requires Enabled(s, l) && Gentle(s, l)
    ensures Total(Work, Apply(s, l).threads) < Total(Work, s.threads)
  {
    WorkStep(s, l);
  }

  ghost predicate CanBeFreed(s: State) {
    exists ls :: Trace(s, ls) && After(s, ls).streamsMu.None?
  }

  lemma {:induction false} NotLostIsFreed(s: State)
    requires Safe(s) && !StreamsMuLost(s)
    ensures CanBeFreed(s)
    decreases Total(Work, s.threads)
  {
    if s.streamsMu.None? {
      assert Trace(s, []) && After(s, []) == s;
    } else {
      var l := StepToFree(s);
      var s' := Apply(s, l);
      GentleWork(s, l);
      SafeKept(s, l);
      NotLostIsFreed(s');
      var ls :| Trace(s', ls) && After(s', ls).streamsMu.None?;
      TraceCons(s, l, ls);
    }
  }

  /** Exactly when rtpStreamsMu, and with it every lookup, is blocked for ever: when it is held by a reader whose
      send no loop will receive. */
  lemma StreamsMuFreedIff(s: State)
    requires Reachable(s)
    ensures CanBeFreed(s) <==> !StreamsMuLost(s)
  {
    ReachableSafe(s);
    if StreamsMuLost(s) {
      forall ls | Trace(s, ls)
        ensures After(s, ls).streamsMu.Some?
      {
        StreamsMuLostForever(s, ls);
      }
    } else {
      NotLostIsFreed(s);
    }
  }

  // ----- Which parked senders can be received from -----

  ghost predicate CanBeServed(s: State, p: nat) {
    exists ls :: Trace(s, ls) && !ParkedSender(After(s, ls), p)
  }

  lemma ServedAfterStep(s: State, l: Label, p: nat)
    requires Enabled(s, l) && CanBeServed(Apply(s, l), p)
    ensures CanBeServed(s, p)
  {
    var ls :| Trace(Apply(s, l), ls) && !ParkedSender(After(Apply(s, l), ls), p);
    TraceCons(s, l, ls);
  }

  lemma ServedNow(s: State, p: nat)
    requires !ParkedSender(s, p)
    ensures CanBeServed(s, p)
  {
    assert Trace(s, []) && After(s, []) == s;
  }

  /** With rtpStreamsMu free, loops on the way to sid but none that can come back: the next step of a thread that
      looks up, or of the Bind that keeps `m`. */
  lemma StepOnTheWay(s: State, t: nat, sid: nat) returns (l: Label)
    requires Safe(s) && s.streamsMu.None? && LostFor(s, sid) && t < |s.threads| && WillServe(s, s.threads[t], sid)
    ensures l.Go? && Enabled(s, l) && !IsDefault(s, l) && !Aiming(Apply(s, l))
    ensures exists t' :: 0 <= t' < |Apply(s, l).threads| && WillServe(Apply(s, l), Apply(s, l).threads[t'], sid)
  {
    var u := if Serves(s.threads[t], sid) then s.m.value else t;
    l := Go(u, false);
    assert !HoldsStreamsMu(s.threads[t]);
    var s' := Apply(s, l);
    assert ActionOf(u, s, s');
    if u == t {
      var t' := GentleKeepsServer(s, l, t, sid);
    } else {
      assert WillServe(s', s'.threads[t], sid);
    }
  }

  /** A step after which sender p is served or still not doomed. */
  lemma StepToServe(s: State, p: nat) returns (l: Label)
    requires Safe(s) && ParkedSender(s, p) && !Doomed(s, p)
    ensures (l.Go? || l.Meet?) && Enabled(s, l) && !IsDefault(s, l)
    ensures ParkedSender(Apply(s, l), p) ==> !Doomed(Apply(s, l), p)
  {
    var sid := s.threads[p].sid;
    assert StreamsOk(s, s.threads[p]);
    if v: nat :| v < |s.threads| && AtSelectOn(s.threads[v], sid) {
      l := Meet(v, p);
    } else if !LostFor(s, sid) {
      l := ComeNearer(s, sid);
      StaysParkedUnlessMet(s, l, p);
      var u: nat :| u < |Apply(s, l).threads| && Serves(Apply(s, l).threads[u], sid);
      assert WillServe(Apply(s, l), Apply(s, l).threads[u], sid);
    } else {
      var t: nat :| t < |s.threads| && WillServe(s, s.threads[t], sid);
      if s.streamsMu.Some? {
        l := StepToFree(s);
        var t' := GentleKeepsServer(s, l, t, sid);
      } else {
        l := StepOnTheWay(s, t, sid);
      }
      if !l.Meet? || l.sender != p {
        StaysParkedUnlessMet(s, l, p);
      }
    }
  }

  lemma {:induction false} NotDoomedIsServed(s: State, p: nat)
    requires Safe(s) && ParkedSender(s, p) && !Doomed(s, p)
    ensures CanBeServed(s, p)
    decreases Total(Work, s.threads)
  {
    var l := StepToServe(s, p);
    if ParkedSender(Apply(s, l), p) {
      WorkStep(s, l);
      SafeKept(s, l);
      NotDoomedIsServed(Apply(s, l), p);
    } else {
      ServedNow(Apply(s, l), p);
    }
    ServedAfterStep(s, l, p);
  }

  /** Exactly which parked senders, writers and feedback readers alike, can still be received from, by some
      continuation with or without new calls: all but the doomed ones. */
  lemma CanBeServedIff(s: State, p: nat)
    requires Reachable(s) && ParkedSender(s, p)
    ensures CanBeServed(s, p) <==> !Doomed(s, p)
  {
    ReachableSafe(s);
    if Doomed(s, p) {
      forall ls | Trace(s, ls)
        ensures ParkedSender(After(s, ls), p)
      {
        DoomedForever(s, ls, p);
      }
    } else {
      NotDoomedIsServed(s, p);
    }
  }

  /** For a reader, which holds rtpStreamsMu, it is enough to look at the loops past their lookup. */
  lemma ParkedReaderDoomedIff(s: State, r: nat)
    requires Safe(s) && r < |s.threads| && s.threads[r].Reader? && s.threads[r].rpc.ReaderParked?
    ensures Doomed(s, r) <==> LostFor(s, s.threads[r].sid)
  {
    assert HoldsStreamsMu(s.threads[r]);
    var sid := s.threads[r].sid;
    if !LostFor(s, sid) {
      var u: nat :| u < |s.threads| && Serves(s.threads[u], sid);
      assert WillServe(s, s.threads[u], sid);
    }
  }

  /** Where nothing can move, no new call can help: every parked sender is doomed, and rtpStreamsMu is free or
      lost. */
  lemma StuckForGood(s: State)
    requires Safe(s) && !CanMove(s)
    ensures forall p | ParkedSender(s, p) :: Doomed(s, p)
    ensures s.streamsMu.None? || StreamsMuLost(s)
  {
    forall p | ParkedSender(s, p)
      ensures Doomed(s, p)
    {
      if !Doomed(s, p) {
        var l := StepToServe(s, p);
      }
    }
    if s.streamsMu.Some? && !StreamsMuLost(s) {
      var l := StepToFree(s);
    }
  }
}
