/**
 The naive bitrate controller: a step index raised when the send queue is empty or shrinking and lowered when
 it keeps growing, guarded by packet counters and timers.
 */
module NaiveController {
  import opened Rtp

  // Durations and instants are in nanoseconds.
  const INCREASE_GAP: int := 500_000_000
  const DECREASE_GAP: int := 50_000_000

  const STEPS: seq<int> := [256_000, 512_000, 768_000, 1_024_000, 1_280_000]

  function Raised(step: int): int {
    if step >= |STEPS| - 1 then step else step + 1
  }

  function Lowered(step: int): int {
    if step <= 0 then step else step - 1
  }

  class BitrateConfig {
    var currentStep: int
    const steps: seq<int>

    ghost predicate Valid()
      reads this
    {
      steps == STEPS && 0 <= currentStep < |steps|
    }

    constructor ()
      ensures Valid() && currentStep == 0
    {
      currentStep := 0;
      steps := STEPS;
    }

    method Increase()
      requires Valid()
      modifies this
      ensures Valid() && currentStep == Raised(old(currentStep))
    {
      if currentStep >= |steps| - 1 {
        return;
      }
      currentStep := currentStep + 1;
    }

    method Decrease()
      requires Valid()
      modifies this
      ensures Valid() && currentStep == Lowered(old(currentStep))
    {
      if currentStep <= 0 {
        return;
      }
      currentStep := currentStep - 1;
    }

    method Target() returns (bps: int)
      requires Valid()
      ensures bps == 256_000 * (currentStep + 1) && 256_000 <= bps <= 1_280_000
    {
      bps := steps[currentStep];
    }
  }

  /** What the loop reads while it handles one packet: the length of the queue behind it, and the clock at its
      five reads, in program order. */
  datatype Input = Input(size: nat, emptyCheck: int, increased: int, decreaseCheck: int, decreased: int,
                         shrinkCheck: int)

  /** Which of the three adjustments were called. */
  datatype Outcome = Outcome(emptied: bool, decreased: bool, shrunk: bool)

  /** The loop's variables; an instant that was never set is before every clock reading. */
  datatype Control = Control(step: int, lastSize: nat, growing: nat, shrinking: nat,
                             lastIncrease: Option<int>, lastDecrease: Option<int>)

  const START := Control(0, 0, 0, 0, None, None)

  predicate Elapsed(now: int, since: Option<int>, gap: int) {
    since.None? || now - since.value > gap
  }

  function OnEmpty(c: Control, x: Input): (Control, bool) {
    if x.size == 0 && Elapsed(x.emptyCheck, c.lastIncrease, INCREASE_GAP)
    then (c.(step := Raised(c.step), growing := 0, shrinking := 0, lastIncrease := Some(x.increased)), true)
    else (c, false)
  }

  function OnGrowth(c: Control, x: Input): (Control, bool) {
    if !(x.size > c.lastSize || x.size > 200) then (c, false)
    else if c.growing + 1 > 50 && Elapsed(x.decreaseCheck, c.lastDecrease, DECREASE_GAP)
    then (c.(step := Lowered(c.step), growing := 0, lastDecrease := Some(x.decreased)), true)
    else (c.(growing := c.growing + 1), false)
  }

  function OnShrink(c: Control, x: Input): (Control, bool) {
    if !(x.size < 100 && x.size < c.lastSize) then (c, false)
    else if c.shrinking + 1 > 100 && Elapsed(x.shrinkCheck, c.lastIncrease, INCREASE_GAP)
    then (c.(step := Raised(c.step), shrinking := 0), true)
    else (c.(shrinking := c.shrinking + 1), false)
  }

  /** One packet: the three checks in turn. */
  function OnPacket(c: Control, x: Input): (Control, Outcome) {
    var (c1, emptied) := OnEmpty(c, x);
    var (c2, decreased) := OnGrowth(c1, x);
    var (c3, shrunk) := OnShrink(c2, x);
    (c3.(lastSize := x.size), Outcome(emptied, decreased, shrunk))
  }

  /** The loop's variables after a run of packets. */
  function Run(xs: seq<Input>): Control {
    if xs == [] then START else OnPacket(Run(xs[..|xs| - 1]), xs[|xs| - 1]).0
  }

  /** The adjustments made for packet k of a run. */
  function Fired(xs: seq<Input>, k: nat): Outcome
    requires k < |xs|
  {
    OnPacket(Run(xs[..k]), xs[k]).1
  }

  /** The controller loop, from its start until the interceptor is closed after the packets xs. */
  method Loop(config: BitrateConfig, xs: seq<Input>) returns (outcomes: seq<Outcome>)
    requires config.Valid() && config.currentStep == 0
    modifies config
    ensures config.Valid() && config.currentStep == Run(xs).step
    ensures |outcomes| == |xs| && forall k | 0 <= k < |xs| :: outcomes[k] == Fired(xs, k)
  {
    outcomes := [];
    var lastQueueSize: nat := 0;
    var queueGrowing: nat := 0;
    var queueShrinking: nat := 0;
    var lastDecrease: Option<int> := None;
    var lastIncrease: Option<int> := None;
    for i := 0 to |xs|
      invariant config.Valid()
      invariant Run(xs[..i]) == Control(config.currentStep, lastQueueSize, queueGrowing, queueShrinking,
                                        lastIncrease, lastDecrease)
      invariant |outcomes| == i && forall k | 0 <= k < i :: outcomes[k] == Fired(xs, k)
    {
      var x := xs[i];
      var outcome := Outcome(false, false, false);
      if x.size == 0 && Elapsed(x.emptyCheck, lastIncrease, INCREASE_GAP) {
        config.Increase();
        queueGrowing := 0;
        queueShrinking := 0;
        lastIncrease := Some(x.increased);
        outcome := outcome.(emptied := true);
      }
      if x.size > lastQueueSize || x.size > 200 {
        queueGrowing := queueGrowing + 1;
        if queueGrowing > 50 && Elapsed(x.decreaseCheck, lastDecrease, DECREASE_GAP) {
          config.Decrease();
          lastDecrease := Some(x.decreased);
          queueGrowing := 0;
          outcome := outcome.(decreased := true);
        }
      }
      if x.size < 100 && x.size < lastQueueSize {
        queueShrinking := queueShrinking + 1;
        if queueShrinking > 100 && Elapsed(x.shrinkCheck, lastIncrease, INCREASE_GAP) {
          config.Increase();
          queueShrinking := 0;
          outcome := outcome.(shrunk := true);
        }
      }
      lastQueueSize := x.size;
      outcomes := outcomes + [outcome];
      assert xs[..i + 1][..i] == xs[..i];
    }
    assert xs[..|xs|] == xs;
  }

  // ----- Safety -----

  /** At most one adjustment per packet. */
  lemma AtMostOneAdjustment(c: Control, x: Input)
    ensures var o := OnPacket(c, x).1;
      !(o.emptied && o.decreased) && !(o.emptied && o.shrunk) && !(o.decreased && o.shrunk)
  {
  }

  function Rises(xs: seq<Input>): nat {
    if xs == [] then 0
    else Rises(xs[..|xs| - 1]) + if Run(xs).step > Run(xs[..|xs| - 1]).step then 1 else 0
  }

  function Falls(xs: seq<Input>): nat {
    if xs == [] then 0
    else Falls(xs[..|xs| - 1]) + if Run(xs).step < Run(xs[..|xs| - 1]).step then 1 else 0
  }

  /** The step always indexes the list of bitrates, and is the difference of its rises and falls. */
  lemma {:induction false} StepStaysInRange(xs: seq<Input>)
    ensures 0 <= Run(xs).step < |STEPS|
    ensures Run(xs).step == Rises(xs) - Falls(xs)
  {
    if xs == [] {
    } else {
      StepStaysInRange(xs[..|xs| - 1]);
    }
  }

  /** The target bitrate after a run of packets. */
  function TargetAfter(xs: seq<Input>): int {
    StepStaysInRange(xs);
    STEPS[Run(xs).step]
  }

  /** A packet moves the step by at most one: up exactly when an increase was called below the top, down exactly
      when a decrease was called above the bottom. */
  lemma StepFollowsCalls(c: Control, x: Input)
    ensures var (c', o) := OnPacket(c, x);
      c'.step - c.step == if (o.emptied || o.shrunk) && c.step < |STEPS| - 1 then 1
                          else if o.decreased && c.step > 0 then -1
                          else 0
  {
    AtMostOneAdjustment(c, x);
  }

  // ----- Packet counts -----

  function Decreases(xs: seq<Input>): nat {
    if xs == [] then 0 else Decreases(xs[..|xs| - 1]) + if Fired(xs, |xs| - 1).decreased then 1 else 0
  }

  function ShrinkIncreases(xs: seq<Input>): nat {
    if xs == [] then 0 else ShrinkIncreases(xs[..|xs| - 1]) + if Fired(xs, |xs| - 1).shrunk then 1 else 0
  }

  /** Every decrease is paid for by 51 packets and every shrink-driven increase by 101, whatever the queue
      lengths and the clock. */
  lemma {:induction false} AdjustmentsArePaidFor(xs: seq<Input>)
    ensures 51 * Decreases(xs) + Run(xs).growing + 101 * ShrinkIncreases(xs) + Run(xs).shrinking <= |xs|
  {
    if xs == [] {
    } else {
      AdjustmentsArePaidFor(xs[..|xs| - 1]);
    }
  }

  lemma {:induction false} GrowingSince(xs: seq<Input>, i: nat)
    requires i < |xs| && Fired(xs, i).decreased
    ensures Run(xs).growing <= |xs| - (i + 1)
  {
    var before := xs[..|xs| - 1];
    if i == |before| {
    } else {
      assert before[..i] == xs[..i];
      GrowingSince(before, i);
    }
  }

  lemma {:induction false} ShrinkingSince(xs: seq<Input>, i: nat)
    requires i < |xs| && Fired(xs, i).shrunk
    ensures Run(xs).shrinking <= |xs| - (i + 1)
  {
    var before := xs[..|xs| - 1];
    if i == |before| {
    } else {
      assert before[..i] == xs[..i];
      ShrinkingSince(before, i);
    }
  }

  /** Two decreases are at least 51 packets apart, two shrink-driven increases at least 101. */
  lemma AdjustmentsApart(xs: seq<Input>, i: nat, j: nat)
    requires i < j < |xs|
    ensures Fired(xs, i).decreased && Fired(xs, j).decreased ==> j - i >= 51
    ensures Fired(xs, i).shrunk && Fired(xs, j).shrunk ==> j - i >= 101
  {
    assert xs[..j][..i] == xs[..i];
    if Fired(xs, i).decreased {
      GrowingSince(xs[..j], i);
    }
    if Fired(xs, i).shrunk {
      ShrinkingSince(xs[..j], i);
    }
  }

  // ----- Timing -----

  /** The clock does not go back. */
  predicate ClockOk(xs: seq<Input>) {
    && (forall k | 0 <= k < |xs| ::
          xs[k].emptyCheck <= xs[k].increased <= xs[k].decreaseCheck <= xs[k].decreased <= xs[k].shrinkCheck)
    && (forall i, j | 0 <= i < j < |xs| :: xs[i].shrinkCheck <= xs[j].emptyCheck)
  }

  lemma TimersAfter(c: Control, x: Input)
    ensures var (c', o) := OnPacket(c, x);
      && c'.lastIncrease == (if o.emptied then Some(x.increased) else c.lastIncrease)
      && c'.lastDecrease == (if o.decreased then Some(x.decreased) else c.lastDecrease)
      && (o.emptied ==> Elapsed(x.emptyCheck, c.lastIncrease, INCREASE_GAP))
  {
  }

  lemma ClockAdvances(xs: seq<Input>, i: nat, j: nat)
    requires ClockOk(xs) && i < j < |xs|
    ensures xs[i].increased <= xs[j].increased && xs[i].decreased <= xs[j].decreased
    ensures ClockOk(xs[..j])
  {
  }

  /** The two timers remember the latest adjustment. */
  lemma {:induction false} TimersAreLatest(xs: seq<Input>, i: nat)
    requires ClockOk(xs) && i < |xs|
    ensures Fired(xs, i).emptied ==> Run(xs).lastIncrease.Some? && Run(xs).lastIncrease.value >= xs[i].increased
    ensures Fired(xs, i).decreased ==> Run(xs).lastDecrease.Some? && Run(xs).lastDecrease.value >= xs[i].decreased
  {
    var before, x := xs[..|xs| - 1], xs[|xs| - 1];
    TimersAfter(Run(before), x);
    if i == |before| {
    } else {
      assert before[..i] == xs[..i];
      ClockAdvances(xs, i, |before|);
      TimersAreLatest(before, i);
    }
  }

  /** Two decreases are more than 50 ms apart. Two queue-empty increases are more than 500 ms apart, and a
      shrink-driven increase comes more than 500 ms after every earlier queue-empty one. */
  lemma AdjustmentsApartInTime(xs: seq<Input>, i: nat, j: nat)
    requires ClockOk(xs) && i < j < |xs|
    ensures Fired(xs, i).decreased && Fired(xs, j).decreased ==> xs[j].decreased - xs[i].decreased > DECREASE_GAP
    ensures Fired(xs, i).emptied && Fired(xs, j).emptied ==> xs[j].increased - xs[i].increased > INCREASE_GAP
    ensures Fired(xs, i).emptied && Fired(xs, j).shrunk ==> xs[j].shrinkCheck - xs[i].increased > INCREASE_GAP
  {
    assert xs[..j][..i] == xs[..i];
    TimersAreLatest(xs[..j], i);
  }

  /** The instants, in order, of the queue-empty increases of a run. */
  function EmptyIncreaseTimes(xs: seq<Input>): seq<int> {
    if xs == [] then []
    else EmptyIncreaseTimes(xs[..|xs| - 1]) + if Fired(xs, |xs| - 1).emptied then [xs[|xs| - 1].increased] else []
  }

  predicate Apart(ts: seq<int>) {
    forall k | 0 < k < |ts| :: ts[k] - ts[k - 1] > INCREASE_GAP
  }

  /** ts are increases made so far, the last of which the timer remembers. */
  ghost predicate Recorded(ts: seq<int>, timer: Option<int>) {
    Apart(ts) && (ts != [] ==> timer == Some(ts[|ts| - 1]))
  }

  lemma RecordedKept(ts: seq<int>, c: Control, x: Input)
    requires Recorded(ts, c.lastIncrease) && x.emptyCheck <= x.increased
    ensures var (c', o) := OnPacket(c, x);
      Recorded(ts + if o.emptied then [x.increased] else [], c'.lastIncrease)
  {
    TimersAfter(c, x);
    assert ts + [] == ts;
  }

  lemma {:induction false} EmptyIncreaseTimesApart(xs: seq<Input>)
    requires forall k | 0 <= k < |xs| :: xs[k].emptyCheck <= xs[k].increased
    ensures Recorded(EmptyIncreaseTimes(xs), Run(xs).lastIncrease)
  {
    if xs == [] {
    } else {
      var before, x := xs[..|xs| - 1], xs[|xs| - 1];
      EmptyIncreaseTimesApart(before);
      RecordedKept(EmptyIncreaseTimes(before), Run(before), x);
    }
  }

  lemma {:induction false} GapsAddUp(ts: seq<int>, i: nat, j: nat)
    requires i <= j < |ts| && Apart(ts)
    ensures ts[j] - ts[i] >= INCREASE_GAP * (j - i)
    ensures i < j ==> ts[j] - ts[i] > INCREASE_GAP * (j - i)
  {
    if i == j {
    } else {
      GapsAddUp(ts, i, j - 1);
    }
  }

  /** In any window of length T, however the run goes, at most T/500ms + 1 queue-empty increases happen: any
      stretch of consecutive ones whose first and last are at most T apart has at most that many. */
  lemma EmptyIncreasesPerWindow(xs: seq<Input>, i: nat, j: nat, window: nat)
    requires ClockOk(xs) && i < j <= |EmptyIncreaseTimes(xs)|
    requires EmptyIncreaseTimes(xs)[j - 1] - EmptyIncreaseTimes(xs)[i] <= window
    ensures j - i <= window / INCREASE_GAP + 1
  {
    EmptyIncreaseTimesApart(xs);
    GapsAddUp(EmptyIncreaseTimes(xs), i, j - 1);
  }

  // ----- When an adjustment must be made -----

  /** The queue that packet k's predecessor left behind; none before the first. */
  function SizeBefore(xs: seq<Input>, k: nat): nat
    requires k < |xs|
  {
    if k == 0 then 0 else xs[k - 1].size
  }

  predicate Grows(xs: seq<Input>, k: nat)
    requires k < |xs|
  {
    xs[k].size > 200 || xs[k].size > SizeBefore(xs, k)
  }

  predicate Shrinks(xs: seq<Input>, k: nat)
    requires k < |xs|
  {
    xs[k].size < 100 && xs[k].size < SizeBefore(xs, k)
  }

  /** How many of the packets from i up to j find the queue grown. */
  function Grown(xs: seq<Input>, i: nat, j: nat): nat
    requires i <= j <= |xs|
  {
    if i == j then 0 else Grown(xs, i, j - 1) + if Grows(xs, j - 1) then 1 else 0
  }

  function Shrunk(xs: seq<Input>, i: nat, j: nat): nat
    requires i <= j <= |xs|
  {
    if i == j then 0 else Shrunk(xs, i, j - 1) + if Shrinks(xs, j - 1) then 1 else 0
  }

  lemma {:induction false} LastSizeIs(xs: seq<Input>, k: nat)
    requires k < |xs|
    ensures Run(xs[..k]).lastSize == SizeBefore(xs, k)
  {
    if k == 0 {
    } else {
      assert xs[..k][..k - 1] == xs[..k - 1];
    }
  }

  /** One more packet. */
  lemma RunNext(xs: seq<Input>, k: nat)
    requires k < |xs|
    ensures Run(xs[..k + 1]) == OnPacket(Run(xs[..k]), xs[k]).0
  {
    assert xs[..k + 1][..k] == xs[..k];
  }

  /** A timer that is set holds the instant of one of its adjustments; an unset one has had none. */
  lemma {:induction false} IncreaseTimerHolds(xs: seq<Input>, k: nat)
    requires k <= |xs|
    ensures match Run(xs[..k]).lastIncrease
            case None => forall j | 0 <= j < k :: !Fired(xs, j).emptied
            case Some(t) => exists j :: 0 <= j < k && Fired(xs, j).emptied && t == xs[j].increased
  {
    if k == 0 {
    } else {
      IncreaseTimerHolds(xs, k - 1);
      RunNext(xs, k - 1);
      TimersAfter(Run(xs[..k - 1]), xs[k - 1]);
      assert Fired(xs, k - 1) == OnPacket(Run(xs[..k - 1]), xs[k - 1]).1;
    }
  }

  lemma {:induction false} DecreaseTimerHolds(xs: seq<Input>, k: nat)
    requires k <= |xs|
    ensures match Run(xs[..k]).lastDecrease
            case None => forall j | 0 <= j < k :: !Fired(xs, j).decreased
            case Some(t) => exists j :: 0 <= j < k && Fired(xs, j).decreased && t == xs[j].decreased
  {
    if k == 0 {
    } else {
      DecreaseTimerHolds(xs, k - 1);
      RunNext(xs, k - 1);
      TimersAfter(Run(xs[..k - 1]), xs[k - 1]);
      assert Fired(xs, k - 1) == OnPacket(Run(xs[..k - 1]), xs[k - 1]).1;
    }
  }

  lemma FiredBefore(xs: seq<Input>, j: nat, k: nat)
    requires j < k <= |xs|
    ensures Fired(xs[..k], j) == Fired(xs, j)
  {
    assert xs[..k][..j] == xs[..j];
  }

  /** Whether a timer has run out is whether every earlier adjustment of its kind is long enough ago. */
  lemma RestedIff(xs: seq<Input>, k: nat, now: int)
    requires ClockOk(xs) && k <= |xs|
    ensures Elapsed(now, Run(xs[..k]).lastIncrease, INCREASE_GAP) <==>
            forall j | 0 <= j < k && Fired(xs, j).emptied :: now - xs[j].increased > 500_000_000
    ensures Elapsed(now, Run(xs[..k]).lastDecrease, DECREASE_GAP) <==>
            forall j | 0 <= j < k && Fired(xs, j).decreased :: now - xs[j].decreased > 50_000_000
  {
    IncreaseTimerHolds(xs, k);
    DecreaseTimerHolds(xs, k);
    forall j | 0 <= j < k
      ensures Fired(xs, j).emptied ==>
                Run(xs[..k]).lastIncrease.Some? && Run(xs[..k]).lastIncrease.value >= xs[j].increased
      ensures Fired(xs, j).decreased ==>
                Run(xs[..k]).lastDecrease.Some? && Run(xs[..k]).lastDecrease.value >= xs[j].decreased
    {
      FiredBefore(xs, j, k);
      TimersAreLatest(xs[..k], j);
    }
  }

  /** Exactly when a queue-empty increase is made: nothing is queued, and every earlier one is more than 500 ms
      ago. */
  lemma EmptiedIff(xs: seq<Input>, k: nat)
    requires ClockOk(xs) && k < |xs|
    ensures Fired(xs, k).emptied <==>
            && xs[k].size == 0
            && forall j | 0 <= j < k && Fired(xs, j).emptied :: xs[k].emptyCheck - xs[j].increased > 500_000_000
  {
    RestedIff(xs, k, xs[k].emptyCheck);
  }

  /** Packet i is the first after a decrease or a queue-empty increase, and none of these was made from i up to
      packet k. */
  predicate GrowthSince(xs: seq<Input>, i: nat, k: nat) {
    && i <= k <= |xs|
    && (i == 0 || Fired(xs, i - 1).decreased || Fired(xs, i - 1).emptied)
    && forall j | i <= j < k :: !Fired(xs, j).decreased && !Fired(xs, j).emptied
  }

  lemma GrowthStep(c: Control, x: Input)
    ensures var (c', o) := OnPacket(c, x);
      c'.growing == if o.emptied || o.decreased then 0
                    else c.growing + if x.size > 200 || x.size > c.lastSize then 1 else 0
  {
  }

  lemma {:induction false} CountsGrowth(xs: seq<Input>, i: nat, k: nat)
    requires GrowthSince(xs, i, k)
    ensures Run(xs[..k]).growing == Grown(xs, i, k)
  {
    if k == 0 {
    } else {
      RunNext(xs, k - 1);
      GrowthStep(Run(xs[..k - 1]), xs[k - 1]);
      if i == k {
        assert Run(xs[..k]).growing == 0;
      } else {
        assert !Fired(xs, k - 1).decreased && !Fired(xs, k - 1).emptied;
        CountsGrowth(xs, i, k - 1);
        LastSizeIs(xs, k - 1);
      }
    }
  }

  /** Exactly when a decrease is made: the queue has grown again, for the 51st time at least since the last decrease
      or queue-empty increase, and every earlier decrease is more than 50 ms ago. */
  lemma DecreasedIff(xs: seq<Input>, i: nat, k: nat)
    requires ClockOk(xs) && k < |xs| && GrowthSince(xs, i, k)
    ensures Fired(xs, k).decreased <==>
            && Grows(xs, k) && Grown(xs, i, k + 1) > 50
            && forall j | 0 <= j < k && Fired(xs, j).decreased :: xs[k].decreaseCheck - xs[j].decreased > 50_000_000
  {
    CountsGrowth(xs, i, k);
    LastSizeIs(xs, k);
    RestedIff(xs, k, xs[k].decreaseCheck);
  }

  /** Packet i is one that made a queue-empty increase or the first after a shrink-driven one, and after it none
      of these was made up to packet k, nor a queue-empty increase for packet k. */
  predicate ShrinkingFrom(xs: seq<Input>, i: nat, k: nat) {
    && i <= k < |xs|
    && (i == 0 || Fired(xs, i).emptied || Fired(xs, i - 1).shrunk)
    && (forall j | i < j <= k :: !Fired(xs, j).emptied)
    && forall j | i <= j < k :: !Fired(xs, j).shrunk
  }

  lemma ShrinkStep(c: Control, x: Input)
    ensures var (c', o) := OnPacket(c, x);
      && OnEmpty(c, x).0.shrinking == (if o.emptied then 0 else c.shrinking)
      && c'.shrinking == if o.shrunk then 0
                         else OnEmpty(c, x).0.shrinking + if x.size < 100 && x.size < c.lastSize then 1 else 0
  {
  }

  lemma {:induction false} CountsShrinking(xs: seq<Input>, i: nat, k: nat)
    requires ShrinkingFrom(xs, i, k)
    ensures OnEmpty(Run(xs[..k]), xs[k]).0.shrinking == Shrunk(xs, i, k)
  {
    ShrinkStep(Run(xs[..k]), xs[k]);
    if k == 0 {
    } else {
      RunNext(xs, k - 1);
      ShrinkStep(Run(xs[..k - 1]), xs[k - 1]);
      if i == k {
        assert OnEmpty(Run(xs[..k]), xs[k]).0.shrinking == 0;
      } else {
        assert !Fired(xs, k - 1).shrunk && !Fired(xs, k).emptied;
        CountsShrinking(xs, i, k - 1);
        LastSizeIs(xs, k - 1);
      }
    }
  }

  /** Exactly when a shrink-driven increase is made: below 100 packets the queue has shrunk again, for the 101st
      time at least since the last increase, and every queue-empty increase is more than 500 ms ago. */
  lemma ShrunkIff(xs: seq<Input>, i: nat, k: nat)
    requires ClockOk(xs) && ShrinkingFrom(xs, i, k)
    ensures Fired(xs, k).shrunk <==>
            && Shrinks(xs, k) && Shrunk(xs, i, k + 1) > 100
            && forall j | 0 <= j <= k && Fired(xs, j).emptied :: xs[k].shrinkCheck - xs[j].increased > 500_000_000
  {
    CountsShrinking(xs, i, k);
    LastSizeIs(xs, k);
    RestedIff(xs, k, xs[k].shrinkCheck);
  }

  // ----- Adjustments are made in time -----

  function GrowthStart(xs: seq<Input>, k: nat): (i: nat)
    requires k <= |xs|
    ensures GrowthSince(xs, i, k)
  {
    if k == 0 || Fired(xs, k - 1).decreased || Fired(xs, k - 1).emptied then k else GrowthStart(xs, k - 1)
  }

  lemma {:induction false} AllGrown(xs: seq<Input>, i: nat, from: nat, k: nat)
    requires i <= from <= k <= |xs| && forall j | from <= j < k :: Grows(xs, j)
    ensures Grown(xs, i, k) >= k - from
  {
    if k == from {
    } else {
      AllGrown(xs, i, from, k - 1);
    }
  }

  /** A queue that keeps growing, or stays above 200, is answered: among 51 such packets in a row one makes a
      decrease, unless an earlier decrease is at most 50 ms ago at the last of them. */
  lemma DecreaseIsMade(xs: seq<Input>, i: nat)
    requires ClockOk(xs) && i + 51 <= |xs| && forall j | i <= j < i + 51 :: Grows(xs, j)
    requires forall j | 0 <= j < i && Fired(xs, j).decreased :: xs[i + 50].decreaseCheck - xs[j].decreased > 50_000_000
    ensures exists k :: i <= k < i + 51 && Fired(xs, k).decreased
  {
    if forall j | i <= j < i + 51 :: !Fired(xs, j).decreased {
      var k := i + 50;
      forall j | i <= j <= k
        ensures !Fired(xs, j).emptied
      {
        assert Grows(xs, j);
        EmptiedIff(xs, j);
      }
      var start := GrowthStart(xs, i);
      assert GrowthSince(xs, start, k);
      AllGrown(xs, start, i, k + 1);
      DecreasedIff(xs, start, k);
    }
  }

  function ShrinkStart(xs: seq<Input>, k: nat): (i: nat)
    requires k < |xs|
    ensures ShrinkingFrom(xs, i, k)
  {
    if k == 0 || Fired(xs, k).emptied || Fired(xs, k - 1).shrunk then k else ShrinkStart(xs, k - 1)
  }

  lemma ShrinkingOn(xs: seq<Input>, start: nat, i: nat, k: nat)
    requires ShrinkingFrom(xs, start, i) && i <= k < |xs|
    requires forall j | i <= j <= k :: !Fired(xs, j).shrunk && (i < j ==> !Fired(xs, j).emptied)
    ensures ShrinkingFrom(xs, start, k)
  {
  }

  lemma {:induction false} AllShrunk(xs: seq<Input>, i: nat, from: nat, k: nat)
    requires i <= from <= k <= |xs| && forall j | from <= j < k :: Shrinks(xs, j)
    ensures Shrunk(xs, i, k) >= k - from
  {
    if k == from {
    } else {
      AllShrunk(xs, i, from, k - 1);
    }
  }

  /** A queue that keeps shrinking below 100 is answered: among 101 such packets in a row, none of which makes a
      queue-empty increase, one makes a shrink-driven increase, unless a queue-empty increase is at most 500 ms ago
      at the last of them. */
  lemma IncreaseIsMade(xs: seq<Input>, i: nat)
    requires ClockOk(xs) && i + 101 <= |xs|
    requires forall j | i <= j < i + 101 :: Shrinks(xs, j) && !Fired(xs, j).emptied
    requires forall j | 0 <= j < i && Fired(xs, j).emptied :: xs[i + 100].shrinkCheck - xs[j].increased > 500_000_000
    ensures exists k :: i <= k < i + 101 && Fired(xs, k).shrunk
  {
    if forall j | i <= j < i + 101 :: !Fired(xs, j).shrunk {
      var k := i + 100;
      var start := ShrinkStart(xs, i);
      ShrinkingOn(xs, start, i, k);
      AllShrunk(xs, start, i, k + 1);
      ShrunkIff(xs, start, k);
    }
  }
}
