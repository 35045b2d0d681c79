/**
 Progress: how many actions the sender can take, when it can get stuck, and why a parked sender is served
 and Close returns.
 */
module SenderProgress {
  import opened Rtp
  import opened SenderProtocol
  import opened SenderTotals
  import opened SenderShutdown

  /** The select statement takes its default case: nothing to receive, not closed. */
  predicate IsDefault(s: State, l: Label) {
    l.Go? && l.t < |s.threads| && s.threads[l.t].Loop? && s.threads[l.t].lpc.AtSelect? && !s.closed
  }

  lemma LoopWork(s: State, t: nat, ok: bool)
    requires t < |s.threads| && s.threads[t].Loop? && CanGo(s, s.threads[t])
    ensures WorkOf(LoopGo(s, t, ok).threads[t])
            < WorkOf(s.threads[t]) + if IsDefault(s, Go(t, ok)) then 8 else 0
  {
  }

  lemma ReaderWork(s: State, t: nat)
    requires t < |s.threads| && s.threads[t].Reader? && CanGo(s, s.threads[t])
    ensures WorkOf(ReaderGo(s, t).threads[t]) < WorkOf(s.threads[t])
  {
  }

  lemma BinderWork(s: State, t: nat)
    requires t < |s.threads| && s.threads[t].Binder? && CanGo(s, s.threads[t])
    ensures WorkOf(BinderGo(s, t).threads[t]) + Total(Work, Started(s.threads[t])) < WorkOf(s.threads[t])
  {
  }

  lemma OtherWork(s: State, t: nat)
    requires t < |s.threads| && CanGo(s, s.threads[t])
    ensures s.threads[t].Producer? ==> WorkOf(ProducerGo(s, t).threads[t]) < WorkOf(s.threads[t])
    ensures s.threads[t].Closer? ==> WorkOf(CloserGo(s, t).threads[t]) < WorkOf(s.threads[t])
    ensures s.threads[t].Getter? ==> WorkOf(GetterGo(s, t).threads[t]) < WorkOf(s.threads[t])
  {
  }

  /** Every action of a thread other than a default lowers its work, including that of a loop it starts. */
  lemma GoWork(s: State, t: nat, ok: bool)
    requires Enabled(s, Go(t, ok))
    ensures t < |Apply(s, Go(t, ok)).threads|
    ensures WorkOf(Apply(s, Go(t, ok)).threads[t]) + Total(Work, Started(s.threads[t]))
            < WorkOf(s.threads[t]) + if IsDefault(s, Go(t, ok)) then 8 else 0
  {
    match s.threads[t]
    case Loop(_, _, _, _, _, _) => LoopWork(s, t, ok);
    case Reader(_, _, _, _, _) => ReaderWork(s, t);
    case Binder(_, _) => BinderWork(s, t);
    case _ => OtherWork(s, t);
  }

  /** Actions of the sender itself: everything but new calls and Tx clearing a queue. */
  function Actions(ls: seq<Label>): nat {
    if ls == [] then 0 else Count(ls[0].Go? || ls[0].Meet?) + Actions(ls[1..])
  }

  /** The work that calls entering during ls bring along. */
  function CallWork(ls: seq<Label>): nat {
    if ls == [] then 0 else (if ls[0].Call? then WorkOf(ls[0].thread) else 0) + CallWork(ls[1..])
  }

  function Defaults(s: State, ls: seq<Label>): nat
    requires Trace(s, ls)
    decreases |ls|
  {
    if ls == [] then 0 else Count(IsDefault(s, ls[0])) + Defaults(Apply(s, ls[0]), ls[1..])
  }

  lemma WorkStep(s: State, l: Label)
    requires Enabled(s, l)
    ensures Total(Work, Apply(s, l).threads) + Count(l.Go? || l.Meet?)
            <= Total(Work, s.threads) + (if l.Call? then WorkOf(l.thread) else 0) + 8 * Count(IsDefault(s, l))
  {
    match l
    case Call(th) => TotalAppend(Work, s.threads, th);
    case Meet(u, p) => MeetTotal(Work, s, u, p);
    case Clear(_, _) =>
    case Go(t, ok) =>
      GoWork(s, t, ok);
      assert ActionOf(t, s, Apply(s, l));
      GoTotal(Work, s, t, Apply(s, l));
  }

  /** Every run, from any state: the actions taken are paid for by the work present at the start, the work that
      new calls bring, and eight for each time a loop found nothing to receive. */
  lemma {:induction false} ActionsBounded(s: State, ls: seq<Label>)
    requires Trace(s, ls)
    ensures Actions(ls) + Total(Work, After(s, ls).threads)
            <= Total(Work, s.threads) + CallWork(ls) + 8 * Defaults(s, ls)
    decreases |ls|
  {
    if ls == [] {
    } else {
      WorkStep(s, ls[0]);
      ActionsBounded(Apply(s, ls[0]), ls[1..]);
    }
  }

  // ----- Waiting -----

  /** Some action of the sender itself is possible. */
  ghost predicate CanMove(s: State) {
    exists l: Label :: (l.Go? || l.Meet?) && Enabled(s, l)
  }

  predicate WantsM(th: Thread) {
    || (th.Loop? && (th.lpc.AtOkLock? || th.lpc.AtAddLock?))
    || (th.Producer? && th.ppc.AtAnnounceLock?)
    || (th.Reader? && th.rpc.AtFeedbackLock?)
    || (th.Binder? && th.bpc.AtBindLock?)
    || (th.Closer? && th.cpc.AtCloseLock?)
    || (th.Getter? && th.gpc.AtGetLock?)
  }

  predicate WantsStreamsMu(th: Thread) {
    || (th.Loop? && th.lpc.AtLookupLock?)
    || (th.Reader? && th.rpc.AtSsrc? && th.ssrcs != [])
    || (th.Binder? && th.bpc.AtTableLock?)
    || (th.Getter? && th.gpc.AtGetStreamsLock?)
  }

  predicate IsParked(th: Thread) {
    (th.Producer? && th.ppc.ProducerParked?) || (th.Reader? && th.rpc.ReaderParked?)
  }

  predicate Finished(th: Thread) {
    match th
    case Loop(pc, _, _, _, _, _) => pc.LoopDone?
    case Producer(pc, _, _) => pc.ProducerDone?
    case Reader(pc, _, _, _, _) => pc.ReaderDone?
    case Binder(pc, _) => pc.BinderDone?
    case Closer(pc) => pc.CloserDone?
    case Getter(pc, _) => pc.GetterDone?
  }

  predicate AtSelectOn(th: Thread, sid: nat) {
    th.Loop? && th.lpc.AtSelect? && th.sid == sid
  }

  /** Why thread th cannot act on its own. A loop at its select waits only when a sender is parked for it,
      and then it can receive. */
  lemma Waits(s: State, t: nat)
    requires Safe(s) && t < |s.threads| && !CanGo(s, s.threads[t])
    ensures var th := s.threads[t];
      || Finished(th) || IsParked(th)
      || (WantsM(th) && s.m.Some?)
      || (WantsStreamsMu(th) && s.streamsMu.Some?)
      || (th.Closer? && th.cpc.AtWait? && s.wg != 0)
      || (th.Loop? && th.lpc.AtSelect? && !s.closed && !NoneParked(s, th.sid))
  {
    assert StreamsOk(s, s.threads[t]);
  }

  lemma CannotGo(s: State, t: nat)
    requires !CanMove(s) && t < |s.threads|
    ensures !CanGo(s, s.threads[t])
  {
    assert Enabled(s, Go(t, true)) <==> CanGo(s, s.threads[t]);
  }

  /** `m` is held by a Bind that waits for rtpStreamsMu. */
  predicate BindHoldsM(s: State) {
    s.m.Some? && s.m.value < |s.threads| && s.threads[s.m.value].Binder? && s.threads[s.m.value].bpc.AtTableLock?
  }

  /** rtpStreamsMu is held by a feedback reader blocked on its send. */
  predicate ParkedReaderHoldsStreamsMu(s: State) {
    && s.streamsMu.Some? && s.streamsMu.value < |s.threads|
    && s.threads[s.streamsMu.value].Reader? && s.threads[s.streamsMu.value].rpc.ReaderParked?
  }

  lemma StuckHolders(s: State)
    requires Safe(s) && !CanMove(s)
    ensures s.m.Some? ==> BindHoldsM(s) && s.streamsMu.Some?
    ensures s.streamsMu.Some? ==> ParkedReaderHoldsStreamsMu(s)
  {
    if s.m.Some? {
      CannotGo(s, s.m.value);
      Waits(s, s.m.value);
    }
    if s.streamsMu.Some? {
      CannotGo(s, s.streamsMu.value);
      Waits(s, s.streamsMu.value);
    }
  }

  /** The ways a thread is stuck for good as long as no new call enters. */
  predicate Stuck(s: State, th: Thread) {
    || Finished(th)
    || (IsParked(th) && forall u | 0 <= u < |s.threads| :: !AtSelectOn(s.threads[u], th.sid))
    || (WantsM(th) && BindHoldsM(s) && ParkedReaderHoldsStreamsMu(s))
    || (WantsStreamsMu(th) && ParkedReaderHoldsStreamsMu(s))
    || (th.Closer? && th.cpc.AtWait? && s.wg != 0)
  }

  /** A loop at its select can always move: it receives, takes the default, or leaves. */
  lemma NoLoopAtSelect(s: State, u: nat)
    requires u < |s.threads| && s.threads[u].Loop? && s.threads[u].lpc.AtSelect?
    ensures CanMove(s)
  {
    var sid := s.threads[u].sid;
    if s.closed || NoneParked(s, sid) {
      assert Enabled(s, Go(u, true));
    } else {
      var p :| 0 <= p < |s.threads| && ParkedOn(s.threads[p], sid);
      assert Enabled(s, Meet(u, p));
    }
  }

  lemma StuckIfNothingMoves(s: State, t: nat)
    requires Safe(s) && !CanMove(s) && t < |s.threads|
    ensures Stuck(s, s.threads[t])
  {
    CannotGo(s, t);
    Waits(s, t);
    StuckHolders(s);
    var th := s.threads[t];
    if th.Loop? && th.lpc.AtSelect? {
      NoLoopAtSelect(s, t);
    } else if IsParked(th) {
      forall u | 0 <= u < |s.threads|
        ensures !AtSelectOn(s.threads[u], th.sid)
      {
        if s.threads[u].Loop? && s.threads[u].lpc.AtSelect? {
          NoLoopAtSelect(s, u);
        }
      }
    }
  }

  lemma StuckDisables(s: State, l: Label)
    requires l.Go? || l.Meet?
    requires forall t | 0 <= t < |s.threads| :: Stuck(s, s.threads[t])
    ensures !Enabled(s, l)
  {
    match l
    case Go(t, _) => if t < |s.threads| { assert Stuck(s, s.threads[t]); }
    case Meet(u, _) => if u < |s.threads| { assert Stuck(s, s.threads[u]); }
  }

  /** Exactly when nothing in the sender can move: a mutex is waited for only behind a feedback reader that is
      parked inside rtpStreamsMu, alone or with a Bind that holds `m` in between. */
  lemma NothingMovesIff(s: State)
    requires Safe(s)
    ensures !CanMove(s) <==> forall t | 0 <= t < |s.threads| :: Stuck(s, s.threads[t])
  {
    if !CanMove(s) {
      forall t | 0 <= t < |s.threads|
        ensures Stuck(s, s.threads[t])
      {
        StuckIfNothingMoves(s, t);
      }
    }
    if forall t | 0 <= t < |s.threads| :: Stuck(s, s.threads[t]) {
      forall l: Label | l.Go? || l.Meet?
        ensures !Enabled(s, l)
      {
        StuckDisables(s, l);
      }
    }
  }

  // ----- A parked sender is served -----

  predicate StaysParked(s: State, ls: seq<Label>, p: nat, sid: nat)
    requires Trace(s, ls)
    decreases |ls|
  {
    && p < |s.threads| && ParkedOn(s.threads[p], sid)
    && (ls != [] ==> StaysParked(Apply(s, ls[0]), ls[1..], p, sid))
  }

  lemma ClosedMonotone(s: State, l: Label)
    requires Safe(s) && Enabled(s, l)
    ensures s.closed ==> Apply(s, l).closed
    ensures |s.streams| <= |Apply(s, l).streams|
  {
    if l.Go? {
      StepOf(s, l.t, l.ok);
    }
  }

  lemma {:induction false} GrowsAfter(s: State, ls: seq<Label>)
    requires Safe(s) && Trace(s, ls)
    ensures s.closed ==> After(s, ls).closed
    ensures |s.streams| <= |After(s, ls).streams|
    decreases |ls|
  {
    if ls == [] {
    } else {
      ClosedMonotone(s, ls[0]);
      SafeKept(s, ls[0]);
      GrowsAfter(Apply(s, ls[0]), ls[1..]);
    }
  }

  lemma ParkedBlocksDefault(s: State, l: Label, p: nat)
    requires Safe(s) && Enabled(s, l) && |s.streams| <= 1
    requires p < |s.threads| && ParkedOn(s.threads[p], 0)
    ensures !IsDefault(s, l)
  {
    if l.Go? {
      assert StreamsOk(s, s.threads[l.t]);
    }
  }

  /** With one stream, a loop never takes the default while a sender is parked. */
  lemma {:induction false} NoDefaultWhileParked(s: State, ls: seq<Label>, p: nat)
    requires Safe(s) && Trace(s, ls) && StaysParked(s, ls, p, 0)
    requires |After(s, ls).streams| == 1
    ensures Defaults(s, ls) == 0
    decreases |ls|
  {
    if ls == [] {
    } else {
      SafeKept(s, ls[0]);
      GrowsAfter(s, ls);
      ParkedBlocksDefault(s, ls[0], p);
      NoDefaultWhileParked(Apply(s, ls[0]), ls[1..], p);
    }
  }

  /** A loop past its lookup stays past it, and finishes only after close. */
  lemma LoopStaysPastLookup(s: State, l: Label, u: nat)
    requires Enabled(s, l) && u < |s.threads| && PastLookup(s.threads[u])
    ensures u < |Apply(s, l).threads| && PastLookup(Apply(s, l).threads[u])
  {
    match l
    case Call(_) =>
    case Clear(_, _) =>
    case Meet(_, _) =>
    case Go(t, ok) => assert ActionOf(t, s, Apply(s, l));
  }

  lemma {:induction false} LoopPastLookupAfter(s: State, ls: seq<Label>, u: nat)
    requires Trace(s, ls) && u < |s.threads| && PastLookup(s.threads[u])
    ensures u < |After(s, ls).threads| && PastLookup(After(s, ls).threads[u])
    decreases |ls|
  {
    if ls == [] {
    } else {
      LoopStaysPastLookup(s, ls[0], u);
      LoopPastLookupAfter(Apply(s, ls[0]), ls[1..], u);
    }
  }

  lemma {:induction false} ParkedAfter(s: State, ls: seq<Label>, p: nat, sid: nat)
    requires Trace(s, ls) && StaysParked(s, ls, p, sid)
    ensures p < |After(s, ls).threads| && ParkedOn(After(s, ls).threads[p], sid)
    decreases |ls|
  {
    if ls == [] {
    } else {
      ParkedAfter(Apply(s, ls[0]), ls[1..], p, sid);
    }
  }

  /** With a loop past its lookup and not closed, the sender can move, unless a Bind that holds `m` waits for
      rtpStreamsMu. */
  lemma LoopCanBeMoved(s: State, u: nat)
    requires Safe(s) && u < |s.threads| && PastLookup(s.threads[u])
    requires !s.closed && !BindHoldsM(s)
    ensures CanMove(s)
  {
    if !CanMove(s) {
      assert CloseOk(s, s.threads[u]);
      StuckIfNothingMoves(s, u);
    }
  }

  /** One stream, its loop past the lookup, not closed: a sender that is parked in every state of a run bounds
      the number of actions in it, and the run can always be continued by another action unless a second Bind
      holds `m` while waiting for rtpStreamsMu: no cycle of lock and channel waits exists. New calls may enter
      meanwhile, each adding its own work to the bound. */
  lemma ParkedSenderIsServed(s: State, ls: seq<Label>, u: nat, p: nat)
    requires Reachable(s) && Trace(s, ls) && StaysParked(s, ls, p, 0)
    requires u < |s.threads| && PastLookup(s.threads[u])
    requires |After(s, ls).streams| == 1 && !After(s, ls).closed
    ensures Actions(ls) <= Total(Work, s.threads) + CallWork(ls)
    ensures !BindHoldsM(After(s, ls)) ==> CanMove(After(s, ls))
  {
    ReachableSafe(s);
    SafeAfter(s, ls);
    ActionsBounded(s, ls);
    NoDefaultWhileParked(s, ls, p);
    LoopPastLookupAfter(s, ls, u);
    if !BindHoldsM(After(s, ls)) {
      LoopCanBeMoved(After(s, ls), u);
    }
  }

  /** No Bind and no Close call is in flight. */
  predicate NoBindOrClose(s: State) {
    forall t | 0 <= t < |s.threads| :: s.threads[t].Binder? || s.threads[t].Closer? ==> Finished(s.threads[t])
  }

  predicate NoCalls(ls: seq<Label>) {
    forall k | 0 <= k < |ls| :: !ls[k].Call?
  }

  /** Within n steps and without new calls, sender p can be received from. */
  ghost predicate ServedWithin(s: State, p: nat, n: nat) {
    exists ls :: Trace(s, ls) && NoCalls(ls) && |ls| <= n
      && p < |After(s, ls).threads| && !ParkedOn(After(s, ls).threads[p], 0)
  }

  lemma ServedWithinStep(s: State, l: Label, p: nat, n: nat)
    requires Enabled(s, l) && !l.Call? && ServedWithin(Apply(s, l), p, n)
    ensures ServedWithin(s, p, n + 1)
  {
    var s' := Apply(s, l);
    var ls :| Trace(s', ls) && NoCalls(ls) && |ls| <= n
      && p < |After(s', ls).threads| && !ParkedOn(After(s', ls).threads[p], 0);
    assert ([l] + ls)[1..] == ls;
    assert Trace(s, [l] + ls) && After(s, [l] + ls) == After(s', ls) && NoCalls([l] + ls);
  }

  /** With no Bind or Close in flight, a step that is no new call keeps the setting. */
  lemma SettingKept(s: State, l: Label, u: nat)
    requires Safe(s) && NoBindOrClose(s) && |s.streams| == 1 && !s.closed
    requires Enabled(s, l) && !l.Call? && u < |s.threads| && PastLookup(s.threads[u])
    ensures var s' := Apply(s, l);
      && NoBindOrClose(s') && |s'.streams| == 1 && !s'.closed
      && |s.threads| <= |s'.threads| && PastLookup(s'.threads[u])
  {
    LoopStaysPastLookup(s, l, u);
    if l.Go? {
      StepOf(s, l.t, l.ok);
      assert ActionOf(l.t, s, Apply(s, l));
    }
  }

  lemma NoBindKeepsM(s: State, u: nat)
    requires Safe(s) && NoBindOrClose(s) && !s.closed && u < |s.threads| && PastLookup(s.threads[u])
    ensures CanMove(s)
  {
    assert s.m.Some? ==> HoldsM(s.threads[s.m.value]);
    LoopCanBeMoved(s, u);
  }

  /** With one stream, its loop past the lookup, not closed and no Bind or Close in flight: a run without new calls
      in which a sender stays parked is bounded by the work there is, and never stops: every run that goes on as long
      as it can receives from the sender. */
  lemma {:induction false} ParkedRunGoesOn(s: State, ls: seq<Label>, u: nat, p: nat)
    requires Safe(s) && NoBindOrClose(s) && |s.streams| == 1 && !s.closed
    requires u < |s.threads| && PastLookup(s.threads[u])
    requires Trace(s, ls) && NoCalls(ls) && StaysParked(s, ls, p, 0)
    ensures Actions(ls) + Total(Work, After(s, ls).threads) <= Total(Work, s.threads)
    ensures CanMove(After(s, ls))
    decreases |ls|
  {
    if ls == [] {
      NoBindKeepsM(s, u);
    } else {
      assert !ls[0].Call?;
      SettingKept(s, ls[0], u);
      ParkedBlocksDefault(s, ls[0], p);
      WorkStep(s, ls[0]);
      SafeKept(s, ls[0]);
      assert forall k | 0 <= k < |ls| - 1 :: ls[1..][k] == ls[k + 1];
      ParkedRunGoesOn(Apply(s, ls[0]), ls[1..], u, p);
    }
  }

  /** In particular there is a way on, within as many steps as there is work, to where the sender has been
      received from. */
  lemma {:induction false} ParkedSenderLeaves(s: State, u: nat, p: nat)
    requires Safe(s) && NoBindOrClose(s) && |s.streams| == 1 && !s.closed
    requires u < |s.threads| && PastLookup(s.threads[u]) && p < |s.threads| && ParkedOn(s.threads[p], 0)
    ensures ServedWithin(s, p, Total(Work, s.threads))
    decreases Total(Work, s.threads)
  {
    NoBindKeepsM(s, u);
    var l: Label :| (l.Go? || l.Meet?) && Enabled(s, l);
    var s' := Apply(s, l);
    SettingKept(s, l, u);
    ParkedBlocksDefault(s, l, p);
    WorkStep(s, l);
    SafeKept(s, l);
    if ParkedOn(s'.threads[p], 0) {
      ParkedSenderLeaves(s', u, p);
    } else {
      assert Trace(s', []) && NoCalls([]) && After(s', []) == s';
    }
    ServedWithinStep(s, l, p, Total(Work, s'.threads));
  }

  // ----- Close returns -----

  lemma {:induction false} NoDefaultAfterClose(s: State, ls: seq<Label>)
    requires Safe(s) && s.closed && Trace(s, ls)
    ensures Defaults(s, ls) == 0
    decreases |ls|
  {
    if ls == [] {
    } else {
      SafeKept(s, ls[0]);
      ClosedMonotone(s, ls[0]);
      NoDefaultAfterClose(Apply(s, ls[0]), ls[1..]);
    }
  }

  lemma AllLoopsFinish(s: State)
    requires Safe(s) && s.closed && !CanMove(s)
    requires forall t | 0 <= t < |s.threads| :: !(s.threads[t].Loop? && s.threads[t].lpc.AtLookupLock?)
    ensures s.wg == 0
  {
    forall t | 0 <= t < |s.threads|
      ensures WeightOf(Unfinished, s.threads[t]) == 0
    {
      StuckIfNothingMoves(s, t);
      assert CloseOk(s, s.threads[t]);
      assert s.m.Some? && s.m.value < |s.threads| ==> CloseOk(s, s.threads[s.m.value]);
    }
    TotalZero(Unfinished, s.threads);
  }

  lemma CloserFinishes(s: State, c: nat)
    requires Safe(s) && s.closed && !CanMove(s) && s.wg == 0 && c < |s.threads| && s.threads[c].Closer?
    ensures s.threads[c].cpc.CloserDone?
  {
    StuckIfNothingMoves(s, c);
    assert s.m.Some? ==> CloseOk(s, s.threads[s.m.value]);
  }

  lemma CloserAtRest(s: State, c: nat)
    requires Safe(s) && s.closed && !CanMove(s) && c < |s.threads| && s.threads[c].Closer?
    ensures s.threads[c].cpc.CloserDone? <==>
            forall t | 0 <= t < |s.threads| :: !(s.threads[t].Loop? && s.threads[t].lpc.AtLookupLock?)
  {
    if s.threads[c].cpc.CloserDone? {
      AllDone(s, c);
    }
    if forall t | 0 <= t < |s.threads| :: !(s.threads[t].Loop? && s.threads[t].lpc.AtLookupLock?) {
      AllLoopsFinish(s);
      CloserFinishes(s, c);
    }
  }

  /** After close every run is finite up to new calls; and where it cannot go on, every Close call has returned,
      except exactly when some loop is still waiting to look its stream up. */
  lemma CloseReturns(s: State, ls: seq<Label>, c: nat)
    requires Reachable(s) && s.closed && Trace(s, ls)
    requires c < |After(s, ls).threads| && After(s, ls).threads[c].Closer?
    ensures Actions(ls) <= Total(Work, s.threads) + CallWork(ls)
    ensures var e := After(s, ls);
      !CanMove(e) ==>
        (e.threads[c].cpc.CloserDone? <==>
         forall t | 0 <= t < |e.threads| :: !(e.threads[t].Loop? && e.threads[t].lpc.AtLookupLock?))
  {
    ReachableSafe(s);
    SafeAfter(s, ls);
    GrowsAfter(s, ls);
    ActionsBounded(s, ls);
    NoDefaultAfterClose(s, ls);
    var e := After(s, ls);
    if !CanMove(e) {
      CloserAtRest(e, c);
    }
  }

  // ----- Iterations after close -----

  function CallSends(ls: seq<Label>): nat {
    if ls == [] then 0 else (if ls[0].Call? then SendsOf(ls[0].thread) else 0) + CallSends(ls[1..])
  }

  /** Loop iterations started during ls: a loop moves from its select to the body. */
  function IterationsStarted(s: State, ls: seq<Label>): nat
    requires Trace(s, ls)
    decreases |ls|
  {
    if ls == [] then 0
    else Count(IsDefault(s, ls[0]) || ls[0].Meet?) + IterationsStarted(Apply(s, ls[0]), ls[1..])
  }

  lemma ReaderSends(s: State, t: nat)
    requires t < |s.threads| && s.threads[t].Reader? && CanGo(s, s.threads[t])
    ensures SendsOf(ReaderGo(s, t).threads[t]) <= SendsOf(s.threads[t])
  {
  }

  lemma BinderSends(s: State, t: nat)
    requires t < |s.threads| && s.threads[t].Binder? && CanGo(s, s.threads[t])
    ensures BinderGo(s, t).threads[t].Binder? && Total(Sends, Started(s.threads[t])) == 0
  {
  }

  lemma GoSends(s: State, t: nat, ok: bool)
    requires Enabled(s, Go(t, ok))
    ensures t < |Apply(s, Go(t, ok)).threads|
    ensures SendsOf(Apply(s, Go(t, ok)).threads[t]) + Total(Sends, Started(s.threads[t])) <= SendsOf(s.threads[t])
  {
    match s.threads[t]
    case Reader(_, _, _, _, _) => ReaderSends(s, t);
    case Binder(_, _) => BinderSends(s, t);
    case _ => assert Carries(s.streams, s.threads[t], Apply(s, Go(t, ok)).threads[t]);
  }

  lemma SendsStep(s: State, l: Label)
    requires Enabled(s, l)
    ensures Count(l.Meet?) + Total(Sends, Apply(s, l).threads)
            <= Total(Sends, s.threads) + if l.Call? then SendsOf(l.thread) else 0
  {
    match l
    case Call(th) => TotalAppend(Sends, s.threads, th);
    case Meet(u, p) => MeetTotal(Sends, s, u, p);
    case Clear(_, _) =>
    case Go(t, ok) =>
      GoSends(s, t, ok);
      assert ActionOf(t, s, Apply(s, l));
      GoTotal(Sends, s, t, Apply(s, l));
  }

  /** After close no loop takes its select's default, so each iteration a loop still starts uses up one of the
      sends on newFeedback that remain, or that new calls bring. */
  lemma {:induction false} IterationsAfterClose(s: State, ls: seq<Label>)
    requires Safe(s) && s.closed && Trace(s, ls)
    ensures IterationsStarted(s, ls) + Total(Sends, After(s, ls).threads) <= Total(Sends, s.threads) + CallSends(ls)
    decreases |ls|
  {
    if ls == [] {
    } else {
      SendsStep(s, ls[0]);
      SafeKept(s, ls[0]);
      ClosedMonotone(s, ls[0]);
      IterationsAfterClose(Apply(s, ls[0]), ls[1..]);
    }
  }
}
