/**
 Mutual exclusion, the stream table, the wait group and shutdown: an invariant of every reachable state.
 */
module SenderShutdown {
  import opened Rtp
  import opened SenderProtocol
  import opened SenderTotals

  /** Each mutex is owned by exactly the thread whose program counter lies in its critical section. */
  ghost predicate LocksOk(s: State) {
    && (forall t | 0 <= t < |s.threads| :: HoldsM(s.threads[t]) <==> s.m == Some(t))
    && (forall t | 0 <= t < |s.threads| :: HoldsStreamsMu(s.threads[t]) <==> s.streamsMu == Some(t))
    && (s.m.Some? ==> s.m.value < |s.threads|)
    && (s.streamsMu.Some? ==> s.streamsMu.value < |s.threads|)
  }

  predicate PastLookup(th: Thread) {
    th.Loop? && !th.lpc.AtLookupLock? && !th.lpc.AtLookup?
  }

  /** A thread only names streams that exist: no lookup misses, no nil stream is used. */
  predicate StreamsOk(s: State, th: Thread) {
    match th
    case Loop(pc, ssrc, sid, _, _, _) => ssrc in s.table && (PastLookup(th) ==> sid < |s.streams|)
    case Producer(_, sid, _) => sid < |s.streams|
    case Reader(pc, sid, _, _, _) => pc.AtSignal? || pc.ReaderParked? ==> sid < |s.streams|
    case Binder(pc, ssrc) => pc.InRegister? || pc.AtGo? ==> ssrc in s.table
    case _ => true
  }

  ghost predicate TableOk(s: State) {
    && (forall k | k in s.table :: s.table[k] < |s.streams|)
    && (forall t | 0 <= t < |s.threads| :: StreamsOk(s, s.threads[t]))
  }

  /** What each thread's position says about the close channel. */
  predicate CloseOk(s: State, th: Thread) {
    && (Launching(th) ==> !s.closed)
    && (th.Loop? && th.lpc.LoopDone? ==> s.closed)
    && (th.Closer? && (th.cpc.AtWait? || th.cpc.CloserDone?) ==> s.closed)
    && (th.Closer? && th.cpc.CloserDone? ==> s.wg == 0)
  }

  ghost predicate ShutdownOk(s: State) {
    && s.closes == Count(s.closed)
    && s.wg == Total(Unfinished, s.threads)
    && (forall t | 0 <= t < |s.threads| :: CloseOk(s, s.threads[t]))
  }

  ghost predicate Safe(s: State) {
    LocksOk(s) && TableOk(s) && ShutdownOk(s)
  }

  lemma LocksKeptByGo(s: State, t: nat, s': State)
    requires LocksOk(s) && t < |s.threads| && ActionOf(t, s, s')
    ensures LocksOk(s')
  {
  }

  lemma LocksKept(s: State, l: Label)
    requires LocksOk(s) && Enabled(s, l)
    ensures LocksOk(Apply(s, l))
  {
    match l
    case Call(th) =>
    case Go(t, ok) => LocksKeptByGo(s, t, Apply(s, l));
    case Meet(u, p) =>
    case Clear(_, _) =>
  }

  /** The table and the list of streams only grow, and what t names exists. */
  ghost predicate TableStep(s: State, t: nat, s': State)
    requires t < |s.threads|
  {
    && |s.streams| <= |s'.streams|
    && s.table.Keys <= s'.table.Keys
    && (forall k | k in s'.table :: s'.table[k] < |s'.streams|)
    && t < |s'.threads| && StreamsOk(s', s'.threads[t])
    && (forall th | th in Started(s.threads[t]) :: StreamsOk(s', th))
  }

  /** Only a closer that holds `m` closes; the wait group follows t's own count. */
  ghost predicate ShutdownStep(s: State, t: nat, s': State)
    requires t < |s.threads|
  {
    && t < |s'.threads|
    && (s.closed ==> s'.closed)
    && (s'.closed && !s.closed ==> HoldsM(s.threads[t]) && !Launching(s.threads[t]))
    && s'.closes == s.closes + Count(s'.closed) - Count(s.closed)
    && s'.wg - s.wg == WeightOf(Unfinished, s'.threads[t]) - WeightOf(Unfinished, s.threads[t])
                       + Total(Unfinished, Started(s.threads[t]))
    && (s.closed ==> s'.wg <= s.wg)
    && CloseOk(s', s'.threads[t])
  }

  lemma LoopStep(s: State, t: nat, ok: bool)
    requires Safe(s) && t < |s.threads| && s.threads[t].Loop? && CanGo(s, s.threads[t])
    ensures TableStep(s, t, LoopGo(s, t, ok)) && ShutdownStep(s, t, LoopGo(s, t, ok))
  {
  }

  lemma ProducerStep(s: State, t: nat)
    requires Safe(s) && t < |s.threads| && s.threads[t].Producer? && CanGo(s, s.threads[t])
    ensures TableStep(s, t, ProducerGo(s, t)) && ShutdownStep(s, t, ProducerGo(s, t))
  {
  }

  lemma ReaderStep(s: State, t: nat)
    requires Safe(s) && t < |s.threads| && s.threads[t].Reader? && CanGo(s, s.threads[t])
    ensures TableStep(s, t, ReaderGo(s, t)) && ShutdownStep(s, t, ReaderGo(s, t))
  {
  }

  lemma BinderStep(s: State, t: nat)
    requires Safe(s) && t < |s.threads| && s.threads[t].Binder? && CanGo(s, s.threads[t])
    ensures TableStep(s, t, BinderGo(s, t)) && ShutdownStep(s, t, BinderGo(s, t))
  {
  }

  lemma CloserStep(s: State, t: nat)
    requires Safe(s) && t < |s.threads| && s.threads[t].Closer? && CanGo(s, s.threads[t])
    ensures TableStep(s, t, CloserGo(s, t)) && ShutdownStep(s, t, CloserGo(s, t))
  {
  }

  lemma GetterStep(s: State, t: nat)
    requires Safe(s) && t < |s.threads| && s.threads[t].Getter? && CanGo(s, s.threads[t])
    ensures TableStep(s, t, GetterGo(s, t)) && ShutdownStep(s, t, GetterGo(s, t))
  {
  }

  lemma StepOf(s: State, t: nat, ok: bool)
    requires Safe(s) && Enabled(s, Go(t, ok))
    ensures TableStep(s, t, Apply(s, Go(t, ok))) && ShutdownStep(s, t, Apply(s, Go(t, ok)))
  {
    match s.threads[t]
    case Loop(_, _, _, _, _, _) => LoopStep(s, t, ok);
    case Producer(_, _, _) => ProducerStep(s, t);
    case Reader(_, _, _, _, _) => ReaderStep(s, t);
    case Binder(_, _) => BinderStep(s, t);
    case Closer(_) => CloserStep(s, t);
    case Getter(_, _) => GetterStep(s, t);
  }

  lemma TableKeptByGo(s: State, t: nat, s': State)
    requires TableOk(s) && t < |s.threads| && ActionOf(t, s, s') && TableStep(s, t, s')
    ensures TableOk(s')
  {
  }

  lemma TableKept(s: State, l: Label)
    requires Safe(s) && Enabled(s, l)
    ensures TableOk(Apply(s, l))
  {
    var s' := Apply(s, l);
    match l
    case Call(th) =>
    case Meet(u, p) =>
    case Clear(_, _) =>
    case Go(t, ok) =>
      StepOf(s, t, ok);
      TableKeptByGo(s, t, s');
  }

  lemma ShutdownKeptByCall(s: State, th: Thread)
    requires ShutdownOk(s) && Enabled(s, Call(th))
    ensures ShutdownOk(Apply(s, Call(th)))
  {
    TotalAppend(Unfinished, s.threads, th);
  }

  lemma ShutdownKeptByMeet(s: State, u: nat, p: nat)
    requires ShutdownOk(s) && Enabled(s, Meet(u, p))
    ensures ShutdownOk(Apply(s, Meet(u, p)))
  {
    MeetTotal(Unfinished, s, u, p);
  }

  lemma ShutdownKeptByGo(s: State, t: nat, s': State)
    requires LocksOk(s) && ShutdownOk(s) && t < |s.threads| && ActionOf(t, s, s') && ShutdownStep(s, t, s')
    ensures ShutdownOk(s')
  {
    GoTotal(Unfinished, s, t, s');
  }

  lemma ShutdownKept(s: State, l: Label)
    requires Safe(s) && Enabled(s, l)
    ensures ShutdownOk(Apply(s, l))
  {
    match l
    case Call(th) => ShutdownKeptByCall(s, th);
    case Meet(u, p) => ShutdownKeptByMeet(s, u, p);
    case Clear(_, _) =>
    case Go(t, ok) =>
      StepOf(s, t, ok);
      ShutdownKeptByGo(s, t, Apply(s, l));
  }

  lemma SafeKept(s: State, l: Label)
    requires Safe(s) && Enabled(s, l)
    ensures Safe(Apply(s, l))
  {
    LocksKept(s, l);
    TableKept(s, l);
    ShutdownKept(s, l);
  }

  lemma {:induction false} SafeAfter(s: State, ls: seq<Label>)
    requires Safe(s) && Trace(s, ls)
    ensures Safe(After(s, ls))
    decreases |ls|
  {
    if ls == [] {
    } else {
      SafeKept(s, ls[0]);
      SafeAfter(Apply(s, ls[0]), ls[1..]);
    }
  }

  /** Every reachable state is safe, however the threads are interleaved. */
  lemma ReachableSafe(s: State)
    requires Reachable(s)
    ensures Safe(s)
  {
    var ls :| Trace(INIT, ls) && After(INIT, ls) == s;
    SafeAfter(INIT, ls);
  }

  /** No two threads are ever inside the same mutex. */
  lemma MutualExclusion(s: State, t: nat, u: nat)
    requires Reachable(s) && t < u < |s.threads|
    ensures !(HoldsM(s.threads[t]) && HoldsM(s.threads[u]))
    ensures !(HoldsStreamsMu(s.threads[t]) && HoldsStreamsMu(s.threads[u]))
  {
    ReachableSafe(s);
  }

  ghost function UnfinishedLoops(ths: seq<Thread>): set<nat> {
    set t: nat | t < |ths| && ths[t].Loop? && !ths[t].lpc.LoopDone?
  }

  lemma {:induction false} UnfinishedCount(ths: seq<Thread>)
    requires forall t | 0 <= t < |ths| :: !Launching(ths[t])
    ensures Total(Unfinished, ths) == |UnfinishedLoops(ths)|
  {
    if ths == [] {
    } else {
      var n := |ths| - 1;
      UnfinishedCount(ths[..n]);
      var last := if ths[n].Loop? && !ths[n].lpc.LoopDone? then {n} else {};
      assert UnfinishedLoops(ths) == UnfinishedLoops(ths[..n]) + last;
    }
  }

  /** Except while a Bind that has added to it holds `m`, the wait group counts the loops started and not
      yet finished; with such a Bind it counts one more. The close channel is closed at most once. */
  lemma WaitGroupCounts(s: State)
    requires Reachable(s)
    ensures s.closes == Count(s.closed) <= 1
    ensures (forall t | 0 <= t < |s.threads| :: !Launching(s.threads[t])) ==> s.wg == |UnfinishedLoops(s.threads)|
    ensures forall t | 0 <= t < |s.threads| && Launching(s.threads[t]) :: s.m == Some(t) && s.wg > 0 && !s.closed
  {
    ReachableSafe(s);
    if forall t | 0 <= t < |s.threads| :: !Launching(s.threads[t]) {
      UnfinishedCount(s.threads);
    }
    forall t | 0 <= t < |s.threads| && Launching(s.threads[t])
      ensures s.m == Some(t) && s.wg > 0 && !s.closed
    {
      TotalBound(Unfinished, s.threads, t);
    }
  }

  lemma ClosedKeptByGo(s: State, t: nat, ok: bool)
    requires Safe(s) && Enabled(s, Go(t, ok)) && s.closed
    ensures Apply(s, Go(t, ok)).closed
    ensures Started(s.threads[t]) == []
    ensures t < |Apply(s, Go(t, ok)).threads|
    ensures s.threads[t].Loop? == Apply(s, Go(t, ok)).threads[t].Loop?
  {
    assert CloseOk(s, s.threads[t]);
    StepOf(s, t, ok);
  }

  lemma ClosedKept(s: State, l: Label)
    requires Safe(s) && Enabled(s, l) && s.closed
    ensures Apply(s, l).closed
    ensures Total(Loops, Apply(s, l).threads) == Total(Loops, s.threads)
  {
    match l
    case Call(th) => TotalAppend(Loops, s.threads, th);
    case Meet(u, p) => MeetTotal(Loops, s, u, p);
    case Clear(_, _) =>
    case Go(t, ok) =>
      GoTotal(Loops, s, t, Apply(s, l));
      ClosedKeptByGo(s, t, ok);
  }

  /** Once the channel is closed it stays closed and no loop is ever started again. */
  lemma {:induction false} NoLoopStartsAfterClose(s: State, ls: seq<Label>)
    requires Safe(s) && s.closed && Trace(s, ls)
    ensures After(s, ls).closed
    ensures Total(Loops, After(s, ls).threads) == Total(Loops, s.threads)
    decreases |ls|
  {
    if ls == [] {
    } else {
      ClosedKept(s, ls[0]);
      SafeKept(s, ls[0]);
      NoLoopStartsAfterClose(Apply(s, ls[0]), ls[1..]);
    }
  }

  lemma AllDone(s: State, c: nat)
    requires Safe(s) && c < |s.threads| && s.threads[c] == Closer(CloserDone)
    ensures s.closed
    ensures forall t | 0 <= t < |s.threads| && s.threads[t].Loop? :: s.threads[t].lpc.LoopDone?
  {
    assert CloseOk(s, s.threads[c]);
    forall t | 0 <= t < |s.threads| && s.threads[t].Loop?
      ensures s.threads[t].lpc.LoopDone?
    {
      TotalBound(Unfinished, s.threads, t);
    }
  }

  lemma QuietGo(s: State, t: nat, ok: bool, c: nat)
    requires Safe(s) && Enabled(s, Go(t, ok)) && c < |s.threads| && s.threads[c] == Closer(CloserDone)
    ensures var s' := Apply(s, Go(t, ok));
      && |s.threads| <= |s'.threads| && s'.threads[c] == s.threads[c]
      && Total(Writes, s'.threads) == Total(Writes, s.threads)
      && forall u | 0 <= u < |s.threads| && s.threads[u].Loop? :: s'.threads[u] == s.threads[u]
  {
    AllDone(s, c);
    GoTotal(Writes, s, t, Apply(s, Go(t, ok)));
    ClosedKeptByGo(s, t, ok);
    assert !s.threads[t].Loop? && t != c;
    assert ActionOf(t, s, Apply(s, Go(t, ok)));
  }

  lemma QuietStep(s: State, l: Label, c: nat)
    requires Safe(s) && Enabled(s, l) && c < |s.threads| && s.threads[c] == Closer(CloserDone)
    ensures var s' := Apply(s, l);
      && |s.threads| <= |s'.threads| && s'.threads[c] == s.threads[c]
      && Total(Writes, s'.threads) == Total(Writes, s.threads)
      && forall t | 0 <= t < |s.threads| && s.threads[t].Loop? :: s'.threads[t] == s.threads[t]
  {
    AllDone(s, c);
    match l
    case Call(th) => TotalAppend(Writes, s.threads, th);
    case Meet(u, p) =>
    case Clear(_, _) =>
    case Go(t, ok) => QuietGo(s, t, ok, c);
  }

  /** When some Close call has returned, every loop has finished, and in every continuation no loop acts
      again: none is started, none writes, and each stays as it is. */
  lemma {:induction false} QuietAfterCloseReturns(s: State, ls: seq<Label>, c: nat)
    requires Safe(s) && Trace(s, ls)
    requires c < |s.threads| && s.threads[c] == Closer(CloserDone)
    ensures Total(Loops, After(s, ls).threads) == Total(Loops, s.threads)
    ensures Total(Writes, After(s, ls).threads) == Total(Writes, s.threads)
    ensures |s.threads| <= |After(s, ls).threads|
    ensures forall t | 0 <= t < |s.threads| && s.threads[t].Loop? ::
              s.threads[t].lpc.LoopDone? && After(s, ls).threads[t] == s.threads[t]
    decreases |ls|
  {
    AllDone(s, c);
    if ls == [] {
    } else {
      QuietStep(s, ls[0], c);
      SafeKept(s, ls[0]);
      ClosedKept(s, ls[0]);
      QuietAfterCloseReturns(Apply(s, ls[0]), ls[1..], c);
    }
  }
}
