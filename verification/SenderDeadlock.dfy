/**
 Three ways the sender deadlocks, each at a reachable state: a feedback reader that looks a stream up before the
 stream's loop has, a second Bind while a feedback reader is signalling, and feedback after Close.
 */
module SenderDeadlock {
  import opened Rtp
  import opened SenderProtocol
  import opened SenderTotals
  import opened SenderShutdown
  import opened SenderProgress
  import opened SenderWaiting
  import opened SenderClose

  lemma {:induction false} TraceAppend(s: State, ls: seq<Label>, l: Label)
    requires Trace(s, ls) && Enabled(After(s, ls), l)
    ensures Trace(s, ls + [l]) && After(s, ls + [l]) == Apply(After(s, ls), l)
    decreases |ls|
  {
    if ls == [] {
      assert Trace(Apply(s, l), []);
      assert ([l])[1..] == [];
      assert [] + [l] == [l];
    } else {
      assert (ls + [l])[1..] == ls[1..] + [l];
      TraceAppend(Apply(s, ls[0]), ls[1..], l);
    }
  }

  lemma ReachStep(s: State, l: Label) returns (s': State)
    requires Reachable(s) && Enabled(s, l)
    ensures Reachable(s') && s' == Apply(s, l)
  {
    var ls :| Trace(INIT, ls) && After(INIT, ls) == s;
    TraceAppend(INIT, ls, l);
    s' := Apply(s, l);
  }

  /** A first Bind has added its stream to the table. */
  lemma ReachRegistering() returns (s: State)
    ensures Reachable(s)
    ensures s == State([Binder(InRegister, 0)], Some(0), None, false, 0, 1, map[0 := 0], [NEW_STREAM])
  {
    s := INIT;
    assert Trace(INIT, []) && After(INIT, []) == s;
    s := ReachStep(s, Call(Binder(AtBindLock, 0)));
    s := ReachStep(s, Go(0, true));
    s := ReachStep(s, Go(0, true));
    s := ReachStep(s, Go(0, true));
    s := ReachStep(s, Go(0, true));
  }

  /** One stream has been bound; its loop (thread 1) has not run yet. */
  lemma ReachBound() returns (s: State)
    ensures Reachable(s)
    ensures s == State([Binder(BinderDone, 0), NewLoop(0)], None, None, false, 0, 1, map[0 := 0], [NEW_STREAM])
  {
    s := ReachRegistering();
    s := ReachStep(s, Go(0, true));
    s := ReachStep(s, Go(0, true));
    s := ReachStep(s, Go(0, true));
  }

  lemma ReachSignal(s0: State, s: State) returns (s': State)
    requires s == s0.(threads := s0.threads + [Reader(AtSsrc, 0, 0, [0], [])])
    requires Reachable(s) && s.streamsMu.None? && 0 in s.table && s.table[0] == 0
    ensures Reachable(s')
    ensures s' == s0.(streamsMu := Some(|s0.threads|), threads := s0.threads + [Reader(ReaderParked, 0, 0, [], [])])
  {
    var t := |s0.threads|;
    s' := ReachStep(s, Go(t, true));
    assert s'.threads[t].ssrcs == [];
    assert s'.threads == s0.threads + [Reader(AtStream, 0, 0, [], [])];
    s' := ReachStep(s', Go(t, true));
    s' := ReachStep(s', Go(t, true));
  }

  /** When both mutexes are free, a feedback packet about SSRC 0 can be read up to the blocked send. */
  lemma ReachParkedReader(s: State) returns (s': State)
    requires Reachable(s) && s.m.None? && s.streamsMu.None? && 0 in s.table && s.table[0] == 0
    ensures Reachable(s')
    ensures s' == s.(streamsMu := Some(|s.threads|), threads := s.threads + [Reader(ReaderParked, 0, 0, [], [])])
  {
    var t := |s.threads|;
    s' := ReachStep(s, Call(Reader(AtNext, 0, 0, [], [Raw([0])])));
    s' := ReachStep(s', Go(t, true));
    assert s'.threads[t].rest == [];
    assert s'.threads == s.threads + [Reader(AtFeedbackLock, 0, 0, [0], [])];
    s' := ReachStep(s', Go(t, true));
    s' := ReachStep(s', Go(t, true));
    assert s' == s.(threads := s.threads + [Reader(AtSsrc, 0, 0, [0], [])]);
    s' := ReachSignal(s, s');
  }

  /** One stream, bound once: feedback for it that is read before its loop has looked the stream up parks for
      ever, holding the mutex the loop needs, and no Close call returns. */
  lemma EarlyFeedbackDeadlocks() returns (s: State)
    ensures Reachable(s) && !s.closed && |s.streams| == 1
    ensures Doomed(s, 2) && StreamsMuLost(s) && !CloseCanReturn(s)
    ensures s.threads[1] == NewLoop(0) && !CanMove(s)
  {
    s := ReachBound();
    s := ReachParkedReader(s);
    assert s.threads == [Binder(BinderDone, 0), NewLoop(0), Reader(ReaderParked, 0, 0, [], [])];
    ReachableSafe(s);
    NothingMovesIff(s);
    StuckForGood(s);
    assert Unstarted(s, s.threads[1]) && ParkedSender(s, 2);
    CloseCanReturnIff(s);
  }

  /** A stream whose loop is about to ask Tx, with a producer about to announce its packet. */
  lemma ReachBusy() returns (s: State)
    ensures Reachable(s)
    ensures s.m == None && s.streamsMu == None && !s.closed && s.table == map[0 := 0]
    ensures s.threads == [Binder(BinderDone, 0), Loop(AtOkLock, 0, 0, NO_PACKET, [], []),
                          Producer(AtAnnounceLock, 0, NO_PACKET)]
  {
    s := ReachBound();
    s := ReachStep(s, Go(1, true));
    s := ReachStep(s, Go(1, true));
    s := ReachStep(s, Call(Producer(AtEnqueue, 0, NO_PACKET)));
    s := ReachStep(s, Go(2, true));
    assert |s.streams[0].queue| == 1;
    s := ReachStep(s, Go(1, true));
    s := ReachStep(s, Go(1, true));
  }

  lemma CycleIsStuck(s: State, ssrc: Ssrc)
    requires Safe(s) && !s.closed
    requires s.threads == [Binder(BinderDone, 0), Loop(AtOkLock, 0, 0, NO_PACKET, [], []),
                           Producer(AtAnnounceLock, 0, NO_PACKET), Reader(ReaderParked, 0, 0, [], []),
                           Binder(AtTableLock, ssrc)]
    ensures BindHoldsM(s)
    ensures !CanMove(s)
  {
    assert HoldsM(s.threads[4]) && HoldsStreamsMu(s.threads[3]);
    NothingMovesIff(s);
  }

  /** A second Bind, of any stream, that takes `m` while the feedback reader signals and the loop waits for `m`
      closes a cycle: the Bind waits for rtpStreamsMu, the reader that holds it waits for the loop, and the loop
      waits for `m`. */
  lemma SecondBindDeadlocks(ssrc: Ssrc) returns (s: State)
    ensures Reachable(s) && !s.closed
    ensures Doomed(s, 3) && StreamsMuLost(s) && !CloseCanReturn(s)
    ensures BindHoldsM(s) && PastLookup(s.threads[1]) && !CanMove(s)
  {
    s := ReachBusy();
    s := ReachParkedReader(s);
    ghost var waiting := s.threads;
    s := ReachStep(s, Call(Binder(AtBindLock, ssrc)));
    s := ReachStep(s, Go(4, true));
    s := ReachStep(s, Go(4, true));
    assert s.threads == waiting + [Binder(AtTableLock, ssrc)];
    ReachableSafe(s);
    CycleIsStuck(s, ssrc);
    StuckForGood(s);
    assert Unstarted(s, s.threads[4]) && ParkedSender(s, 3);
    CloseCanReturnIff(s);
  }

  /** A stream whose loop has left: Close has been called and has returned. */
  lemma ReachClosed() returns (s: State)
    ensures Reachable(s)
    ensures s.m == None && s.streamsMu == None && s.closed && s.table == map[0 := 0] && |s.streams| == 1
    ensures s.threads == [Binder(BinderDone, 0), Loop(LoopDone, 0, 0, NO_PACKET, [], []), Closer(CloserDone)]
  {
    s := ReachBound();
    s := ReachStep(s, Go(1, true));
    s := ReachStep(s, Go(1, true));
    s := ReachStep(s, Call(Closer(AtCloseLock)));
    s := ReachStep(s, Go(2, true));
    s := ReachStep(s, Go(2, true));
    s := ReachStep(s, Go(1, true));
    s := ReachStep(s, Go(2, true));
  }

  /** Feedback that is read after the loops have left on Close parks for ever, and with it rtpStreamsMu is lost:
      every later lookup hangs. */
  lemma FeedbackAfterCloseDeadlocks() returns (s: State)
    ensures Reachable(s) && s.closed && CloseReturned(s) && |s.streams| == 1
    ensures Doomed(s, 3) && StreamsMuLost(s)
    ensures PastLookup(s.threads[1]) && NoBindOrClose(s) && !CanMove(s)
  {
    s := ReachClosed();
    assert s.threads[2] == Closer(CloserDone);
    s := ReachParkedReader(s);
    assert s.threads[2] == Closer(CloserDone) && s.threads[1].lpc.LoopDone?;
    ReachableSafe(s);
    NothingMovesIff(s);
    StuckForGood(s);
    assert ParkedSender(s, 3);
  }
}
