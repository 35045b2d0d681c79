/** Exactly when Close can still return. */
module SenderClose {
  import opened Rtp
  import opened SenderProtocol
  import opened SenderTotals
  import opened SenderShutdown
  import opened SenderProgress
  import opened SenderWaiting

  predicate CloseReturned(s: State) {
    exists c :: 0 <= c < |s.threads| && s.threads[c] == Closer(CloserDone)
  }

  /** A loop that has yet to look its stream up, or a Bind that is certain to start one. */
  predicate Unstarted(s: State, th: Thread) {
    || (th.Loop? && th.lpc.AtLookupLock?)
    || Launching(th)
    || (th.Binder? && th.bpc.AtCheck? && !s.closed)
  }

  predicate AllStarted(s: State) {
    forall t | 0 <= t < |s.threads| :: !Unstarted(s, s.threads[t])
  }

  /** Some loop still needs rtpStreamsMu, which it will never get. */
  predicate CloseLost(s: State) {
    !AllStarted(s) && StreamsMuLost(s)
  }

  // ----- A lost Close stays lost -----

  lemma UnstartedKept(s: State, l: Label)
    requires Safe(s) && Enabled(s, l) && Aiming(s) && !AllStarted(s)
    ensures !AllStarted(Apply(s, l))
  {
    var s' := Apply(s, l);
    var t: nat :| t < |s.threads| && Unstarted(s, s.threads[t]);
    if l.Go? {
      assert ActionOf(l.t, s, s');
      if l.t == t && s.threads[t].Binder? && s.threads[t].bpc.AtGo? {
        assert s'.threads[|s.threads|] == NewLoop(s.threads[t].ssrc);
      } else {
        assert Unstarted(s', s'.threads[t]);
      }
    } else {
      assert Unstarted(s', s'.threads[t]);
    }
  }

  lemma {:induction false} CloseLostForever(s: State, ls: seq<Label>)
    requires Safe(s) && Trace(s, ls) && CloseLost(s)
    ensures CloseLost(After(s, ls))
    decreases |ls|
  {
    if ls == [] {
    } else {
      StreamsMuLostKept(s, ls[0]);
      UnstartedKept(s, ls[0]);
      SafeKept(s, ls[0]);
      CloseLostForever(Apply(s, ls[0]), ls[1..]);
    }
  }

  /** A Close call returns only after every loop has started and finished. */
  lemma AllStartedOnReturn(s: State)
    requires Safe(s) && CloseReturned(s)
    ensures AllStarted(s)
  {
    var c: nat :| c < |s.threads| && s.threads[c] == Closer(CloserDone);
    AllDone(s, c);
    forall t | 0 <= t < |s.threads|
      ensures !Unstarted(s, s.threads[t])
    {
      assert CloseOk(s, s.threads[t]);
    }
  }

  // ----- Any other Close can return -----

  predicate EveryCloseReturned(s: State) {
    CloseReturned(s) && forall t | 0 <= t < |s.threads| && s.threads[t].Closer? :: s.threads[t].cpc.CloserDone?
  }

  ghost predicate EveryCloseCanReturn(s: State) {
    exists ls :: Trace(s, ls) && EveryCloseReturned(After(s, ls))
  }

  lemma ReturnsAfterStep(s: State, l: Label)
    requires Enabled(s, l) && EveryCloseCanReturn(Apply(s, l))
    ensures EveryCloseCanReturn(s)
  {
    var ls :| Trace(Apply(s, l), ls) && EveryCloseReturned(After(Apply(s, l), ls));
    TraceCons(s, l, ls);
  }

  /** After close no loop is started any more. */
  lemma AllStartedKept(s: State, l: Label)
    requires Safe(s) && Enabled(s, l) && (l.Go? || l.Meet?) && s.closed && AllStarted(s)
    ensures Apply(s, l).closed && AllStarted(Apply(s, l))
  {
    ClosedMonotone(s, l);
    if l.Go? {
      assert ActionOf(l.t, s, Apply(s, l));
    }
  }

  lemma CloserStays(s: State, l: Label, c: nat)
    requires Enabled(s, l) && c < |s.threads| && s.threads[c].Closer?
    ensures c < |Apply(s, l).threads| && Apply(s, l).threads[c].Closer?
  {
    if l.Go? {
      assert ActionOf(l.t, s, Apply(s, l));
    }
  }

  /** Once closed, with every loop started, any way on ends where every Close call has returned. */
  lemma {:induction false} ReturnsOnceClosed(s: State, c: nat)
    requires Safe(s) && s.closed && AllStarted(s) && c < |s.threads| && s.threads[c].Closer?
    ensures EveryCloseCanReturn(s)
    decreases Total(Work, s.threads)
  {
    if l: Label :| (l.Go? || l.Meet?) && Enabled(s, l) {
      AllStartedKept(s, l);
      CloserStays(s, l, c);
      WorkStep(s, l);
      SafeKept(s, l);
      ReturnsOnceClosed(Apply(s, l), c);
      ReturnsAfterStep(s, l);
    } else {
      forall t | 0 <= t < |s.threads| && s.threads[t].Closer?
        ensures s.threads[t].cpc.CloserDone?
      {
        CloserAtRest(s, t);
      }
      assert s.threads[c] == Closer(CloserDone);
      assert Trace(s, []) && After(s, []) == s;
    }
  }

  /** The closer c has closed the channel and waits. */
  predicate Closing(s: State, c: nat) {
    s.closed && c < |s.threads| && s.threads[c] == Closer(AtWait)
  }

  /** With `m` free, a new Close call closes the channel. */
  lemma CloserCloses(s: State, c: nat)
    requires Safe(s) && AllStarted(s) && s.m.None? && c < |s.threads| && s.threads[c] == Closer(AtCloseLock)
    ensures var go := Go(c, false);
      && Enabled(s, go) && Enabled(Apply(s, go), go)
      && var s' := Apply(Apply(s, go), go); Safe(s') && Closing(s', c) && AllStarted(s')
  {
    var s1 := Apply(s, Go(c, false));
    var s2 := Apply(s1, Go(c, false));
    SafeKept(s, Go(c, false));
    SafeKept(s1, Go(c, false));
    assert s2.threads == s.threads[c := Closer(AtWait)];
  }

  lemma ReturnsIfCalled(s: State)
    requires Safe(s) && AllStarted(s) && s.m.None?
    ensures EveryCloseCanReturn(s)
  {
    var c := |s.threads|;
    var call, go := Call(Closer(AtCloseLock)), Go(c, false);
    var s1 := Apply(s, call);
    SafeKept(s, call);
    CloserCloses(s1, c);
    ReturnsOnceClosed(Apply(Apply(s1, go), go), c);
    ReturnsAfterStep(Apply(s1, go), go);
    ReturnsAfterStep(s1, go);
    ReturnsAfterStep(s, call);
  }

  /** Whoever holds `m`, with every loop started, can go on and starts none. */
  lemma HolderOfMGoes(s: State)
    requires Safe(s) && AllStarted(s) && s.m.Some?
    ensures var l := Go(s.m.value, false);
      Enabled(s, l) && Gentle(s, l) && AllStarted(Apply(s, l))
  {
    var h := s.m.value;
    assert HoldsM(s.threads[h]) && StreamsOk(s, s.threads[h]) && !Unstarted(s, s.threads[h]);
    ClosedMonotone(s, Go(h, false));
    assert ActionOf(h, s, Apply(s, Go(h, false)));
  }

  lemma {:induction false} ReturnsOnceStarted(s: State)
    requires Safe(s) && AllStarted(s)
    ensures EveryCloseCanReturn(s)
    decreases Total(Work, s.threads)
  {
    if s.m.None? {
      ReturnsIfCalled(s);
    } else {
      var l := Go(s.m.value, false);
      HolderOfMGoes(s);
      GentleWork(s, l);
      SafeKept(s, l);
      ReturnsOnceStarted(Apply(s, l));
      ReturnsAfterStep(s, l);
    }
  }

  /** With rtpStreamsMu free, an unstarted loop or the Bind that starts it goes on. */
  lemma UnstartedGoes(s: State, t: nat)
    requires Safe(s) && s.streamsMu.None? && t < |s.threads| && Unstarted(s, s.threads[t])
    ensures var l := Go(t, false);
      Enabled(s, l) && !IsDefault(s, l) && !StreamsMuLost(Apply(s, l))
  {
    assert !HoldsStreamsMu(s.threads[t]);
    assert ActionOf(t, s, Apply(s, Go(t, false)));
  }

  lemma {:induction false} NotLostReturns(s: State)
    requires Safe(s) && !CloseLost(s)
    ensures EveryCloseCanReturn(s)
    decreases Total(Work, s.threads)
  {
    if AllStarted(s) {
      ReturnsOnceStarted(s);
    } else {
      var l: Label;
      if s.streamsMu.Some? {
        l := StepToFree(s);
      } else {
        var t: nat :| t < |s.threads| && Unstarted(s, s.threads[t]);
        UnstartedGoes(s, t);
        l := Go(t, false);
      }
      WorkStep(s, l);
      SafeKept(s, l);
      NotLostReturns(Apply(s, l));
      ReturnsAfterStep(s, l);
    }
  }

  ghost predicate CloseCanReturn(s: State) {
    exists ls :: Trace(s, ls) && CloseReturned(After(s, ls))
  }

  /** Exactly when a Close call, made already or still to be made, can return: unless some loop has yet to look
      its stream up, or is certain to be started, while rtpStreamsMu is held by a reader whose send no loop will
      receive. Where one can return, all can. */
  lemma CloseCanReturnIff(s: State)
    requires Reachable(s)
    ensures CloseCanReturn(s) <==> !CloseLost(s)
    ensures CloseCanReturn(s) <==> EveryCloseCanReturn(s)
  {
    ReachableSafe(s);
    if CloseLost(s) {
      forall ls | Trace(s, ls)
        ensures !CloseReturned(After(s, ls))
      {
        CloseLostForever(s, ls);
        SafeAfter(s, ls);
        if CloseReturned(After(s, ls)) {
          AllStartedOnReturn(After(s, ls));
        }
      }
    } else {
      NotLostReturns(s);
    }
  }
}
