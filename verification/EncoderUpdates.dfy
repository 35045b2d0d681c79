/** How target bitrates reach the encoder: positive samples, truncated, and only when they change. */
module EncoderUpdates {
  import opened NaiveController

  /** One tick: the congestion controller's target, 0 on an error, and whether a pipeline exists yet. */
  datatype Sample = Sample(bps: real, hasPipeline: bool)

  predicate Usable(x: Sample) {
    x.bps > 0.0 && x.hasPipeline
  }

  /** The truncated targets of the usable samples. */
  function Values(xs: seq<Sample>): seq<int> {
    if xs == [] then []
    else Values(xs[..|xs| - 1]) + if Usable(xs[|xs| - 1]) then [xs[|xs| - 1].bps.Floor] else []
  }

  /** vs without each value that equals the one before it, where the one before the first is `start`. */
  function Changes(start: int, vs: seq<int>): seq<int>
    decreases |vs|
  {
    if vs == [] then []
    else if vs[0] == start then Changes(start, vs[1..])
    else [vs[0]] + Changes(vs[0], vs[1..])
  }

  function LastOr(start: int, vs: seq<int>): int {
    if vs == [] then start else vs[|vs| - 1]
  }

  /** The last value set is always the latest value, so comparing with it compares neighbours. */
  lemma {:induction false} LastChange(start: int, vs: seq<int>)
    ensures LastOr(start, Changes(start, vs)) == LastOr(start, vs)
    decreases |vs|
  {
    if vs == [] {
    } else {
      LastChange(vs[0], vs[1..]);
    }
  }

  lemma {:induction false} ChangesAppend(start: int, vs: seq<int>, v: int)
    ensures Changes(start, vs + [v]) == Changes(start, vs) + if v == LastOr(start, vs) then [] else [v]
    decreases |vs|
  {
    if vs == [] {
      assert vs + [v] == [v];
    } else {
      assert (vs + [v])[1..] == vs[1..] + [v];
      ChangesAppend(vs[0], vs[1..], v);
    }
  }

  /** The loop of runSCReAMStats up to its end: the arguments of SetBitRate. */
  method RunStats(xs: seq<Sample>) returns (updates: seq<int>)
    ensures updates == Changes(0, Values(xs))
  {
    var lastBitrate: int := 0;
    updates := [];
    for i := 0 to |xs|
      invariant updates == Changes(0, Values(xs[..i]))
      invariant lastBitrate == LastOr(0, Values(xs[..i]))
    {
      assert xs[..i + 1][..i] == xs[..i];
      var vs := Values(xs[..i]);
      if Usable(xs[i]) {
        ChangesAppend(0, vs, xs[i].bps.Floor);
      } else {
        assert vs + [] == vs;
      }
      if xs[i].bps > 0.0 && xs[i].hasPipeline && lastBitrate != xs[i].bps.Floor {
        lastBitrate := xs[i].bps.Floor;
        updates := updates + [lastBitrate];
      }
    }
    assert xs[..|xs|] == xs;
  }

  /** No two consecutive updates are equal, the first differs from the initial value, and each is one of the
      values; with LastChange, a value is dropped exactly when it equals the one set last. */
  lemma {:induction false} UpdatesChange(start: int, vs: seq<int>)
    ensures var us := Changes(start, vs);
      && (us != [] ==> us[0] != start)
      && (forall k | 0 < k < |us| :: us[k] != us[k - 1])
      && (forall u | u in us :: u in vs)
    decreases |vs|
  {
    if vs == [] {
    } else {
      UpdatesChange(vs[0], vs[1..]);
    }
  }

  /** One more sample: it is set, truncated, exactly if it is positive, a pipeline exists and the encoder is not
      set to it already. */
  lemma NextUpdate(xs: seq<Sample>, x: Sample, u: int)
    requires u as real <= x.bps < u as real + 1.0
    ensures var before := Changes(0, Values(xs));
      Changes(0, Values(xs + [x]))
      == if x.bps > 0.0 && x.hasPipeline && u != LastOr(0, before) then before + [u] else before
  {
    assert (xs + [x])[..|xs|] == xs;
    LastChange(0, Values(xs));
    if Usable(x) {
      assert x.bps.Floor == u;
      ChangesAppend(0, Values(xs), u);
    } else {
      assert Values(xs) + [] == Values(xs);
    }
  }

  lemma {:induction false} ValuesComeFrom(xs: seq<Sample>)
    ensures forall v | v in Values(xs) ::
              exists x :: x in xs && x.hasPipeline && x.bps > 0.0 && v as real <= x.bps < v as real + 1.0
  {
    if xs == [] {
    } else {
      var before, x := xs[..|xs| - 1], xs[|xs| - 1];
      ValuesComeFrom(before);
      assert forall y | y in before :: y in xs;
      assert x in xs;
      forall v | v in Values(xs)
        ensures exists x :: x in xs && x.hasPipeline && x.bps > 0.0 && v as real <= x.bps < v as real + 1.0
      {
        if v !in Values(before) {
          assert v == x.bps.Floor && Usable(x);
        }
      }
    }
  }

  /** Each update is a positive sample taken with a pipeline, truncated; so none is made before there is one. */
  lemma UpdatesComeFromSamples(xs: seq<Sample>)
    ensures forall u | u in Changes(0, Values(xs)) ::
              exists x :: x in xs && x.hasPipeline && x.bps > 0.0 && u as real <= x.bps < u as real + 1.0
    ensures (forall x | x in xs :: !x.hasPipeline) ==> Changes(0, Values(xs)) == []
  {
    ValuesComeFrom(xs);
    UpdatesChange(0, Values(xs));
    if Changes(0, Values(xs)) != [] {
      assert Changes(0, Values(xs))[0] in Values(xs);
    }
  }

  /** Every usable sample is the target of some run of the naive controller. */
  ghost predicate FromController(xs: seq<Sample>) {
    forall x | x in xs && Usable(x) :: exists inputs :: x.bps == TargetAfter(inputs) as real
  }

  lemma {:induction false} ValuesAreSteps(xs: seq<Sample>)
    requires FromController(xs)
    ensures forall v | v in Values(xs) :: v in STEPS
  {
    if xs == [] {
    } else {
      var before, x := xs[..|xs| - 1], xs[|xs| - 1];
      ValuesAreSteps(before);
      if Usable(x) {
        var inputs :| x.bps == TargetAfter(inputs) as real;
        StepStaysInRange(inputs);
        assert TargetAfter(inputs) in STEPS;
      }
    }
  }

  /** Driven by the naive controller, whatever packets it handles between the samples, the encoder is only ever
      set to one of its five bitrates. */
  lemma NaiveUpdatesAreSteps(xs: seq<Sample>)
    requires FromController(xs)
    ensures forall u | u in Changes(0, Values(xs)) :: u in {256_000, 512_000, 768_000, 1_024_000, 1_280_000}
  {
    UpdatesChange(0, Values(xs));
    ValuesAreSteps(xs);
  }
}
