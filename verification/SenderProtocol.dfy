/**
 The SCReAM sender as a system of interleaved threads.

 Every goroutine is a `Thread` with a program counter; one step of the system runs one atomic action of
 one thread, or lets a loop receive from a parked sender. Two mutexes (`m`, `rtpStreamsMu`), the wait
 group, the close channel and the stream table are shared. The congestion controller `scream.Tx` is an
 arbitrary environment: while a thread is inside a Tx call it may clear any queue any number of times,
 and its answers are chosen freely.
 */
module SenderProtocol {
  import opened Rtp

  // Program counters. "At...Lock" waits for a mutex, "In..." is inside a Tx call holding `m`,
  // "...Parked" is blocked sending on an unbuffered `newFeedback` channel.
  datatype LoopPc = AtLookupLock | AtLookup | AtSelect | AtSize | AtOkLock | InOk | AtDequeue | AtWrite
                  | AtAddLock | InAdd | LoopDone
  datatype ProducerPc = AtEnqueue | AtAnnounceLock | InAnnounce | AtSend | ProducerParked | ProducerDone
  datatype ReaderPc = AtNext | AtFeedbackLock | InFeedback | AtSsrc | AtStream | AtSignal | ReaderParked
                    | AtStreamsUnlock | ReaderDone
  datatype BinderPc = AtBindLock | AtCheck | AtTableLock | AtStore | InRegister | AtGo | AtBindUnlock | BinderDone
  datatype CloserPc = AtCloseLock | AtClose | AtWait | CloserDone
  datatype GetterPc = AtGetStreamsLock | AtGetLookup | AtGetLock | InGet | GetterDone

  /** One element of a received RTCP compound: a raw packet with the SSRCs it reports on, or another type. */
  datatype Rtcp = Raw(ssrcs: seq<Ssrc>) | Other

  /** The arguments of one Tx.AddTransmitted call. */
  datatype Report = Report(size: nat, seqNr: uint16, marker: bool)

  /** A goroutine. `written` and `reports` are the histories of a loop's calls to writer.Write and
      Tx.AddTransmitted. */
  datatype Thread =
    | Loop(lpc: LoopPc, ssrc: Ssrc, sid: nat, hand: Packet, written: seq<Packet>, reports: seq<Report>)
    | Producer(ppc: ProducerPc, sid: nat, hand: Packet)
    | Reader(rpc: ReaderPc, sid: nat, current: Ssrc, ssrcs: seq<Ssrc>, rest: seq<Rtcp>)
    | Binder(bpc: BinderPc, ssrc: Ssrc)
    | Closer(cpc: CloserPc)
    | Getter(gpc: GetterPc, ssrc: Ssrc)

  /** A bound stream: its queue, and the histories of what entered the queue, what Tx cleared from it,
      and the bytes told to Tx. */
  datatype Stream = Stream(enqueued: seq<Packet>, queue: seq<Packet>, cleared: seq<Packet>,
                           announcedBytes: nat, transmittedBytes: nat)

  datatype State = State(threads: seq<Thread>, m: Option<nat>, streamsMu: Option<nat>, closed: bool, closes: nat,
                         wg: int, table: map<Ssrc, nat>, streams: seq<Stream>)

  datatype Label =
    | Call(thread: Thread)             // a new API call enters
    | Go(t: nat, ok: bool)             // thread t runs its next action; `ok`: IsOkToTransmit does not answer -1
    | Meet(loop: nat, sender: nat)     // a loop's select receives from a parked sender
    | Clear(t: nat, sid: nat)          // the Tx call that t is in clears a queue

  const NO_PACKET := Packet(0, 0, 0, false)
  const NEW_STREAM := Stream([], [], [], 0, 0)
  const INIT := State([], None, None, false, 0, 0, map[], [])

  predicate HoldsM(th: Thread) {
    match th
    case Loop(pc, _, _, _, _, _) => pc.InOk? || pc.InAdd?
    case Producer(pc, _, _) => pc.InAnnounce?
    case Reader(pc, _, _, _, _) => pc.InFeedback?
    case Binder(pc, _) => !pc.AtBindLock? && !pc.BinderDone?
    case Closer(pc) => pc.AtClose?
    case Getter(pc, _) => pc.InGet?
  }

  predicate HoldsStreamsMu(th: Thread) {
    match th
    case Loop(pc, _, _, _, _, _) => pc.AtLookup?
    case Producer(_, _, _) => false
    case Reader(pc, _, _, _, _) => pc.AtStream? || pc.AtSignal? || pc.ReaderParked? || pc.AtStreamsUnlock?
    case Binder(pc, _) => pc.AtStore?
    case Closer(_) => false
    case Getter(pc, _) => pc.AtGetLookup?
  }

  predicate InTx(th: Thread) {
    match th
    case Loop(pc, _, _, _, _, _) => pc.InOk? || pc.InAdd?
    case Producer(pc, _, _) => pc.InAnnounce?
    case Reader(pc, _, _, _, _) => pc.InFeedback?
    case Binder(pc, _) => pc.InRegister?
    case Closer(_) => false
    case Getter(pc, _) => pc.InGet?
  }

  predicate ParkedOn(th: Thread, sid: nat) {
    || (th.Producer? && th.ppc.ProducerParked? && th.sid == sid)
    || (th.Reader? && th.rpc.ReaderParked? && th.sid == sid)
  }

  predicate NoneParked(s: State, sid: nat) {
    forall u | 0 <= u < |s.threads| :: !ParkedOn(s.threads[u], sid)
  }

  /** The first program counter of each API call. A write needs a stream that exists. */
  predicate Starts(s: State, th: Thread) {
    match th
    case Loop(_, _, _, _, _, _) => false
    case Producer(pc, sid, _) => pc.AtEnqueue? && sid < |s.streams|
    case Reader(pc, _, _, _, _) => pc.AtNext?
    case Binder(pc, _) => pc.AtBindLock?
    case Closer(pc) => pc.AtCloseLock?
    case Getter(pc, _) => pc.AtGetStreamsLock?
  }

  predicate CanGo(s: State, th: Thread) {
    match th
    case Loop(pc, ssrc, sid, _, _, _) =>
      (match pc
       case AtLookupLock => s.streamsMu.None?
       case AtLookup => ssrc in s.table
       case AtSelect => s.closed || NoneParked(s, sid)
       case AtOkLock => s.m.None?
       case AtAddLock => s.m.None?
       case LoopDone => false
       case _ => sid < |s.streams|)
    case Producer(pc, sid, _) =>
      (match pc
       case AtAnnounceLock => s.m.None?
       case ProducerParked => false
       case ProducerDone => false
       case _ => sid < |s.streams|)
    case Reader(pc, _, _, ssrcs, _) =>
      (match pc
       case AtFeedbackLock => s.m.None?
       case AtSsrc => ssrcs == [] || s.streamsMu.None?
       case ReaderParked => false
       case ReaderDone => false
       case _ => true)
    case Binder(pc, _) =>
      (match pc
       case AtBindLock => s.m.None?
       case AtTableLock => s.streamsMu.None?
       case BinderDone => false
       case _ => true)
    case Closer(pc) =>
      (match pc
       case AtCloseLock => s.m.None?
       case AtClose => true
       case AtWait => s.wg == 0
       case CloserDone => false)
    case Getter(pc, _) =>
      (match pc
       case AtGetStreamsLock => s.streamsMu.None?
       case AtGetLock => s.m.None?
       case GetterDone => false
       case _ => true)
  }

  predicate Enabled(s: State, l: Label) {
    match l
    case Call(th) => Starts(s, th)
    case Go(t, _) => t < |s.threads| && CanGo(s, s.threads[t])
    case Meet(u, p) =>
      && u < |s.threads| && p < |s.threads|
      && s.threads[u].Loop? && s.threads[u].lpc.AtSelect?
      && ParkedOn(s.threads[p], s.threads[u].sid)
    case Clear(t, sid) => t < |s.threads| && InTx(s.threads[t]) && sid < |s.streams|
  }

  /** How an action of thread t treats one mutex: it takes it when free, gives it back, or leaves it. */
  predicate MutexEffect(before: Option<nat>, after: Option<nat>, t: nat, held: bool, holds: bool) {
    if held == holds then after == before
    else if holds then before.None? && after == Some(t)
    else after == None
  }

  function NewLoop(ssrc: Ssrc): Thread {
    Loop(AtLookupLock, ssrc, 0, NO_PACKET, [], [])
  }

  /** The loops that thread th starts with its next action. */
  function Started(th: Thread): seq<Thread> {
    if th.Binder? && th.bpc.AtGo? then [NewLoop(th.ssrc)] else []
  }

  /** The stream that thread th works on, after th's next action. */
  function StreamAfter(st: Stream, th: Thread): Stream {
    match th
    case Loop(pc, _, _, hand, _, _) =>
      if pc.AtDequeue? && st.queue != [] then st.(queue := st.queue[1..])
      else if pc.InAdd? then st.(transmittedBytes := st.transmittedBytes + hand.size)
      else st
    case Producer(pc, _, hand) =>
      if pc.AtEnqueue? then
        var p := hand.(id := |st.enqueued|);
        st.(enqueued := st.enqueued + [p], queue := st.queue + [p])
      else if pc.InAnnounce? then st.(announcedBytes := st.announcedBytes + hand.size)
      else st
    case _ => st
  }

  /** All streams after thread th's next action: its own stream changes, or a Bind adds one. */
  function StreamsAfter(ss: seq<Stream>, th: Thread): seq<Stream> {
    if (th.Loop? || th.Producer?) && th.sid < |ss| then ss[th.sid := StreamAfter(ss[th.sid], th)]
    else if th.Binder? && th.bpc.AtStore? then ss + [NEW_STREAM]
    else ss
  }

  function ReportOf(p: Packet): Report {
    Report(p.size, p.seqNr, p.marker)
  }

  /** The control flow of the send loop. */
  predicate LoopEdge(pc: LoopPc, pc': LoopPc) {
    match pc
    case AtLookupLock => pc' == AtLookup
    case AtLookup => pc' == AtSelect
    case AtSelect => pc' == AtSize || pc' == LoopDone
    case AtSize => pc' == AtSelect || pc' == AtOkLock
    case AtOkLock => pc' == InOk
    case InOk => pc' == AtSelect || pc' == AtDequeue
    case AtDequeue => pc' == AtSelect || pc' == AtWrite
    case AtWrite => pc' == AtAddLock
    case AtAddLock => pc' == InAdd
    case InAdd => pc' == AtSelect
    case LoopDone => false
  }

  /** How th's next action changes the packets it carries and its histories. */
  predicate Carries(ss: seq<Stream>, th: Thread, th': Thread) {
    match th
    case Loop(pc, ssrc, sid, hand, written, reports) =>
      && th'.Loop? && LoopEdge(pc, th'.lpc) && th'.ssrc == ssrc
      && (!pc.AtLookup? ==> th'.sid == sid)
      && (pc.AtDequeue? && sid < |ss| ==> (th'.lpc.AtWrite? <==> ss[sid].queue != []))
      && th'.hand == (if pc.AtDequeue? && sid < |ss| && ss[sid].queue != [] then ss[sid].queue[0] else hand)
      && th'.written == (if pc.AtWrite? then written + [hand] else written)
      && th'.reports == (if pc.InAdd? then reports + [ReportOf(hand)] else reports)
    case Producer(pc, sid, hand) =>
      && th'.Producer? && th'.sid == sid
      && th'.hand == (if pc.AtEnqueue? && sid < |ss| then hand.(id := |ss[sid].enqueued|) else hand)
      && (match pc
          case AtEnqueue => th'.ppc.AtAnnounceLock?
          case AtAnnounceLock => th'.ppc.InAnnounce?
          case InAnnounce => th'.ppc.AtSend?
          case _ => th'.ppc.ProducerParked?)
    case _ => !th'.Loop? && !th'.Producer?
  }

  /** What every action of thread t has in common: only t changes, at most one loop is started, and each
      mutex is taken and given back exactly as t's program counter says. */
  predicate ActionOf(t: nat, s: State, s': State)
    requires t < |s.threads|
  {
    && |s.threads| <= |s'.threads|
    && s'.threads == s.threads[t := s'.threads[t]] + Started(s.threads[t])
    && s'.streams == StreamsAfter(s.streams, s.threads[t])
    && Carries(s.streams, s.threads[t], s'.threads[t])
    && MutexEffect(s.m, s'.m, t, HoldsM(s.threads[t]), HoldsM(s'.threads[t]))
    && MutexEffect(s.streamsMu, s'.streamsMu, t, HoldsStreamsMu(s.threads[t]), HoldsStreamsMu(s'.threads[t]))
  }

  /** No action of t touches the wait group, the close channel or the stream table. */
  predicate SharedKept(s: State, s': State) {
    s'.wg == s.wg && s'.closed == s.closed && s'.closes == s.closes && s'.table == s.table
  }

  /** Where the loop's branches lead: out once closed, on with an empty queue or when Tx says no. */
  predicate LoopBranch(s: State, th: Thread, ok: bool, pc': LoopPc)
    requires th.Loop?
  {
    match th.lpc
    case AtSelect => pc' == if s.closed then LoopDone else AtSize
    case AtSize => th.sid < |s.streams| ==> pc' == if s.streams[th.sid].queue == [] then AtSelect else AtOkLock
    case InOk => pc' == if ok then AtDequeue else AtSelect
    case _ => true
  }

  predicate ReaderEdge(s: State, th: Thread, pc': ReaderPc)
    requires th.Reader?
  {
    match th.rpc
    case AtNext => pc' == if th.rest == [] then ReaderDone else if th.rest[0].Raw? then AtFeedbackLock else AtNext
    case AtFeedbackLock => pc' == InFeedback
    case InFeedback => pc' == AtSsrc
    case AtSsrc => pc' == if th.ssrcs == [] then AtNext else AtStream
    case AtStream => pc' == if th.current in s.table then AtSignal else AtSsrc
    case AtSignal => pc' == ReaderParked
    case ReaderParked => false
    case AtStreamsUnlock => pc' == AtSsrc
    case ReaderDone => false
  }

  predicate BinderEdge(s: State, pc: BinderPc, pc': BinderPc) {
    match pc
    case AtBindLock => pc' == AtCheck
    case AtCheck => pc' == if s.closed then BinderDone else AtTableLock
    case AtTableLock => pc' == AtStore
    case AtStore => pc' == InRegister
    case InRegister => pc' == AtGo
    case AtGo => pc' == AtBindUnlock
    case AtBindUnlock => pc' == BinderDone
    case BinderDone => false
  }

  predicate CloserEdge(pc: CloserPc, pc': CloserPc) {
    match pc
    case AtCloseLock => pc' == AtClose
    case AtClose => pc' == AtWait
    case AtWait => pc' == CloserDone
    case CloserDone => false
  }

  predicate GetterEdge(s: State, th: Thread, pc': GetterPc)
    requires th.Getter?
  {
    match th.gpc
    case AtGetStreamsLock => pc' == AtGetLookup
    case AtGetLookup => pc' == if th.ssrc in s.table then AtGetLock else GetterDone
    case AtGetLock => pc' == InGet
    case InGet => pc' == GetterDone
    case GetterDone => false
  }

  function LoopGo(s: State, t: nat, ok: bool): (s': State)
    requires t < |s.threads| && s.threads[t].Loop? && CanGo(s, s.threads[t])
    ensures ActionOf(t, s, s')
    ensures LoopBranch(s, s.threads[t], ok, s'.threads[t].lpc)
    ensures s.threads[t].lpc.AtLookup? ==> s'.threads[t].sid == s.table[s.threads[t].ssrc]
    ensures SharedKept(s.(wg := if s.closed && s.threads[t].lpc.AtSelect? then s.wg - 1 else s.wg), s')
  {
    var th := s.threads[t];
    match th.lpc
    case AtLookupLock => s.(streamsMu := Some(t), threads := s.threads[t := th.(lpc := AtLookup)])
    case AtLookup => s.(streamsMu := None, threads := s.threads[t := th.(lpc := AtSelect, sid := s.table[th.ssrc])])
    case AtSelect =>
      if s.closed then s.(wg := s.wg - 1, threads := s.threads[t := th.(lpc := LoopDone)])
      else s.(threads := s.threads[t := th.(lpc := AtSize)])
    case AtSize =>
      s.(threads := s.threads[t := th.(lpc := if |s.streams[th.sid].queue| <= 0 then AtSelect else AtOkLock)])
    case AtOkLock => s.(m := Some(t), threads := s.threads[t := th.(lpc := InOk)])
    case InOk => s.(m := None, threads := s.threads[t := th.(lpc := if ok then AtDequeue else AtSelect)])
    case AtDequeue =>
      var q := s.streams[th.sid].queue;
      if q == [] then s.(threads := s.threads[t := th.(lpc := AtSelect)])
      else s.(streams := StreamsAfter(s.streams, th), threads := s.threads[t := th.(lpc := AtWrite, hand := q[0])])
    case AtWrite => s.(threads := s.threads[t := th.(lpc := AtAddLock, written := th.written + [th.hand])])
    case AtAddLock => s.(m := Some(t), threads := s.threads[t := th.(lpc := InAdd)])
    case InAdd =>
      s.(m := None, streams := StreamsAfter(s.streams, th),
         threads := s.threads[t := th.(lpc := AtSelect, reports := th.reports + [ReportOf(th.hand)])])
  }

  function ProducerGo(s: State, t: nat): (s': State)
    requires t < |s.threads| && s.threads[t].Producer? && CanGo(s, s.threads[t])
    ensures ActionOf(t, s, s')
    ensures SharedKept(s, s')
  {
    var th := s.threads[t];
    match th.ppc
    case AtEnqueue =>
      s.(streams := StreamsAfter(s.streams, th),
         threads := s.threads[t := th.(ppc := AtAnnounceLock,
                                       hand := th.hand.(id := |s.streams[th.sid].enqueued|))])
    case AtAnnounceLock => s.(m := Some(t), threads := s.threads[t := th.(ppc := InAnnounce)])
    case InAnnounce =>
      s.(m := None, streams := StreamsAfter(s.streams, th),
         threads := s.threads[t := th.(ppc := AtSend)])
    case AtSend => s.(threads := s.threads[t := th.(ppc := ProducerParked)])
  }

  function ReaderGo(s: State, t: nat): (s': State)
    requires t < |s.threads| && s.threads[t].Reader? && CanGo(s, s.threads[t])
    ensures ActionOf(t, s, s')
    ensures s'.threads[t].Reader? && ReaderEdge(s, s.threads[t], s'.threads[t].rpc)
    ensures s'.threads[t].sid
            == if s'.threads[t].rpc.AtSignal? then s.table[s.threads[t].current] else s.threads[t].sid
    ensures SharedKept(s, s')
  {
    var th := s.threads[t];
    match th.rpc
    case AtNext =>
      if th.rest == [] then s.(threads := s.threads[t := th.(rpc := ReaderDone)])
      else if th.rest[0].Other? then s.(threads := s.threads[t := th.(rest := th.rest[1..])])
      else s.(threads := s.threads[t := th.(rpc := AtFeedbackLock, ssrcs := th.rest[0].ssrcs, rest := th.rest[1..])])
    case AtFeedbackLock => s.(m := Some(t), threads := s.threads[t := th.(rpc := InFeedback)])
    case InFeedback => s.(m := None, threads := s.threads[t := th.(rpc := AtSsrc)])
    case AtSsrc =>
      if th.ssrcs == [] then s.(threads := s.threads[t := th.(rpc := AtNext)])
      else s.(streamsMu := Some(t),
              threads := s.threads[t := th.(rpc := AtStream, current := th.ssrcs[0], ssrcs := th.ssrcs[1..])])
    case AtStream =>
      if th.current in s.table
      then s.(threads := s.threads[t := th.(rpc := AtSignal, sid := s.table[th.current])])
      else s.(streamsMu := None, threads := s.threads[t := th.(rpc := AtSsrc)])
    case AtSignal => s.(threads := s.threads[t := th.(rpc := ReaderParked)])
    case AtStreamsUnlock => s.(streamsMu := None, threads := s.threads[t := th.(rpc := AtSsrc)])
  }

  function BinderGo(s: State, t: nat): (s': State)
    requires t < |s.threads| && s.threads[t].Binder? && CanGo(s, s.threads[t])
    ensures ActionOf(t, s, s')
    ensures s'.threads[t].Binder? && s'.threads[t].ssrc == s.threads[t].ssrc
    ensures BinderEdge(s, s.threads[t].bpc, s'.threads[t].bpc)
    ensures s'.wg == s.wg + if s.threads[t].bpc.AtCheck? && !s.closed then 1 else 0
    ensures s'.table == if s.threads[t].bpc.AtStore? then s.table[s.threads[t].ssrc := |s.streams|] else s.table
    ensures s'.closed == s.closed && s'.closes == s.closes
  {
    var th := s.threads[t];
    match th.bpc
    case AtBindLock => s.(m := Some(t), threads := s.threads[t := th.(bpc := AtCheck)])
    case AtCheck =>
      if s.closed then s.(m := None, threads := s.threads[t := th.(bpc := BinderDone)])
      else s.(wg := s.wg + 1, threads := s.threads[t := th.(bpc := AtTableLock)])
    case AtTableLock => s.(streamsMu := Some(t), threads := s.threads[t := th.(bpc := AtStore)])
    case AtStore =>
      s.(streamsMu := None, table := s.table[th.ssrc := |s.streams|],
         streams := StreamsAfter(s.streams, th),
         threads := s.threads[t := th.(bpc := InRegister)])
    case InRegister => s.(threads := s.threads[t := th.(bpc := AtGo)])
    case AtGo => s.(threads := s.threads[t := th.(bpc := AtBindUnlock)] + [NewLoop(th.ssrc)])
    case AtBindUnlock => s.(m := None, threads := s.threads[t := th.(bpc := BinderDone)])
  }

  function CloserGo(s: State, t: nat): (s': State)
    requires t < |s.threads| && s.threads[t].Closer? && CanGo(s, s.threads[t])
    ensures ActionOf(t, s, s')
    ensures s'.threads[t].Closer? && CloserEdge(s.threads[t].cpc, s'.threads[t].cpc)
    ensures s'.threads[t].cpc.CloserDone? ==> s.wg == 0
    ensures s'.closed == (s.closed || s.threads[t].cpc.AtClose?)
    ensures s'.closes == s.closes + if s'.closed && !s.closed then 1 else 0
    ensures s'.wg == s.wg && s'.table == s.table
  {
    var th := s.threads[t];
    match th.cpc
    case AtCloseLock => s.(m := Some(t), threads := s.threads[t := th.(cpc := AtClose)])
    case AtClose =>
      s.(m := None, closed := true, closes := if s.closed then s.closes else s.closes + 1,
         threads := s.threads[t := th.(cpc := AtWait)])
    case AtWait => s.(threads := s.threads[t := th.(cpc := CloserDone)])
  }

  function GetterGo(s: State, t: nat): (s': State)
    requires t < |s.threads| && s.threads[t].Getter? && CanGo(s, s.threads[t])
    ensures ActionOf(t, s, s')
    ensures s'.threads[t].Getter? && s'.threads[t].ssrc == s.threads[t].ssrc
    ensures GetterEdge(s, s.threads[t], s'.threads[t].gpc)
    ensures SharedKept(s, s')
  {
    var th := s.threads[t];
    match th.gpc
    case AtGetStreamsLock => s.(streamsMu := Some(t), threads := s.threads[t := th.(gpc := AtGetLookup)])
    case AtGetLookup =>
      s.(streamsMu := None,
         threads := s.threads[t := th.(gpc := if th.ssrc in s.table then AtGetLock else GetterDone)])
    case AtGetLock => s.(m := Some(t), threads := s.threads[t := th.(gpc := InGet)])
    case InGet => s.(m := None, threads := s.threads[t := th.(gpc := GetterDone)])
  }

  function Received(th: Thread): Thread {
    match th
    case Producer(_, _, _) => th.(ppc := ProducerDone)
    case Reader(_, _, _, _, _) => th.(rpc := AtStreamsUnlock)
    case _ => th
  }

  function Apply(s: State, l: Label): State
    requires Enabled(s, l)
  {
    match l
    case Call(th) => s.(threads := s.threads + [th])
    case Go(t, ok) =>
      (match s.threads[t]
       case Loop(_, _, _, _, _, _) => LoopGo(s, t, ok)
       case Producer(_, _, _) => ProducerGo(s, t)
       case Reader(_, _, _, _, _) => ReaderGo(s, t)
       case Binder(_, _) => BinderGo(s, t)
       case Closer(_) => CloserGo(s, t)
       case Getter(_, _) => GetterGo(s, t))
    case Meet(u, p) =>
      s.(threads := s.threads[u := s.threads[u].(lpc := AtSize)][p := Received(s.threads[p])])
    case Clear(_, sid) =>
      var st := s.streams[sid];
      s.(streams := s.streams[sid := st.(queue := [], cleared := st.cleared + st.queue)])
  }

  /** `ls` can be executed from `s`. */
  predicate Trace(s: State, ls: seq<Label>)
    decreases |ls|
  {
    ls == [] || (Enabled(s, ls[0]) && Trace(Apply(s, ls[0]), ls[1..]))
  }

  function After(s: State, ls: seq<Label>): State
    requires Trace(s, ls)
    decreases |ls|
  {
    if ls == [] then s else After(Apply(s, ls[0]), ls[1..])
  }

  lemma TraceCons(s: State, l: Label, ls: seq<Label>)
    requires Enabled(s, l) && Trace(Apply(s, l), ls)
    ensures Trace(s, [l] + ls) && After(s, [l] + ls) == After(Apply(s, l), ls)
  {
    assert ([l] + ls)[1..] == ls;
  }

  ghost predicate Reachable(s: State) {
    exists ls :: Trace(INIT, ls) && After(INIT, ls) == s
  }
}
