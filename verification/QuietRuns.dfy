/** The whole-history meaning of the two quiet detectors, `benchmarks/browser_endurance.js` and
    `benchmarks/decode_source_packets.c`. A frame holds one sample per channel. */
module QuietRuns {
  /** A decoded sample; arithmetic on the finite ones is exact here. */
  datatype Sample = NonFinite | Finite(x: real)

  type Frame = seq<Sample>

  const MIN_QUIET_FRAMES: nat := 960  // 20 ms at 48 kHz
  const QUIET_LEVEL: real := 0.00001
  const CLIP_LEVEL: real := 0.99997

  function Abs(x: real): real {
    if x < 0.0 then -x else x
  }

  predicate Loud(s: Sample) {
    s.Finite? && Abs(s.x) > QUIET_LEVEL
  }

  predicate Quiet(frame: Frame) {
    forall s :: s in frame ==> !Loud(s)
  }

  /** A quiet stretch of `frames` frames, ended by the sounding frame number `endFrame`. */
  datatype Run = Run(endFrame: nat, frames: nat)

  // ----- incremental definitions -----

  function Trailing(h: seq<Frame>): (n: nat)
    ensures n <= |h|
  {
    if h == [] || !Quiet(h[|h| - 1]) then 0 else 1 + Trailing(h[..|h| - 1])
  }

  function Max(a: nat, b: nat): nat {
    if a < b then b else a
  }

  function Longest(h: seq<Frame>): nat {
    if h == [] then 0 else Max(Longest(h[..|h| - 1]), Trailing(h))
  }

  function Runs(h: seq<Frame>): seq<Run> {
    if h == [] then []
    else
      var before := h[..|h| - 1];
      Runs(before) + EndedBy(before, h[|h| - 1])
  }

  /** The run, if any, that the frame after `before` ends. */
  function EndedBy(before: seq<Frame>, frame: Frame): seq<Run> {
    if !Quiet(frame) && Trailing(before) >= MIN_QUIET_FRAMES
    then [Run(|before|, Trailing(before))]
    else []
  }

  lemma RunsStep(h: seq<Frame>, frame: Frame)
    ensures Runs(h + [frame]) == Runs(h) + EndedBy(h, frame)
  {
    hide EndedBy;
    assert (h + [frame])[..|h|] == h;
  }

  // ----- what they mean -----

  predicate AllQuiet(h: seq<Frame>, from: nat, to: nat)
    requires from <= to <= |h|
  {
    forall i :: from <= i < to ==> Quiet(h[i])
  }

  /** A maximal quiet stretch of at least 20 ms that a sounding frame has ended. */
  ghost predicate IsEndedRun(h: seq<Frame>, r: Run) {
    r.endFrame < |h| && !Quiet(h[r.endFrame])
    && MIN_QUIET_FRAMES <= r.frames <= r.endFrame
    && AllQuiet(h, r.endFrame - r.frames, r.endFrame)
    && (r.frames < r.endFrame ==> !Quiet(h[r.endFrame - r.frames - 1]))
  }

  lemma {:induction false} TrailingIsMaximal(h: seq<Frame>)
    ensures AllQuiet(h, |h| - Trailing(h), |h|)
    ensures Trailing(h) < |h| ==> !Quiet(h[|h| - Trailing(h) - 1])
  {
    if h != [] && Quiet(h[|h| - 1]) {
      TrailingIsMaximal(h[..|h| - 1]);
    }
  }

  /** The listed runs are exactly the ended maximal quiet stretches of at least 20 ms. */
  lemma {:induction false} RunsAreTheEndedRuns(h: seq<Frame>, r: Run)
    ensures r in Runs(h) <==> IsEndedRun(h, r)
  {
    hide Quiet, Trailing;
    if h != [] {
      var before := h[..|h| - 1];
      if r.endFrame < |before| {
        RunsAreTheEndedRuns(before, r);
        EarlierRunsAreStable(h, r);
      } else {
        NoRunEndsLater(before, r);
        LastFrameEndsTheTrailing(h, r);
      }
    }
  }

  lemma EarlierRunsAreStable(h: seq<Frame>, r: Run)
    requires h != [] && r.endFrame < |h| - 1
    ensures IsEndedRun(h, r) <==> IsEndedRun(h[..|h| - 1], r)
  {
    hide Quiet;
    var before := h[..|h| - 1];
    if IsEndedRun(before, r) {
      assert forall i :: 0 <= i < |before| ==> h[i] == before[i];
    }
  }

  lemma LastFrameEndsTheTrailing(h: seq<Frame>, r: Run)
    requires h != [] && r.endFrame >= |h| - 1
    ensures IsEndedRun(h, r) <==> r in EndedBy(h[..|h| - 1], h[|h| - 1])
  {
    hide Quiet, Trailing;
    var before := h[..|h| - 1];
    TrailingIsMaximal(before);
    if IsEndedRun(h, r) {
      StretchLengthIsUnique(before, r.frames);
    }
  }

  lemma NoRunEndsLater(h: seq<Frame>, r: Run)
    requires r.endFrame >= |h|
    ensures r !in Runs(h)
  {}

  lemma StretchLengthIsUnique(h: seq<Frame>, n: nat)
    requires n <= |h| && AllQuiet(h, |h| - n, |h|)
    requires n < |h| ==> !Quiet(h[|h| - n - 1])
    ensures n == Trailing(h)
  {
    TrailingIsMaximal(h);
  }

  /** Runs are listed in order, and each needs its own 20 ms and the frame that ends it. */
  lemma {:induction false} RunsAreSpaced(h: seq<Frame>, i: nat, j: nat)
    requires i <= j < |Runs(h)|
    ensures Runs(h)[j].endFrame < |h|
    ensures Runs(h)[i].endFrame + (j - i) * (MIN_QUIET_FRAMES + 1) <= Runs(h)[j].endFrame
  {
    var before := h[..|h| - 1];
    if j < |Runs(before)| {
      RunsAreSpaced(before, i, j);
    } else if i < j {
      RunsAreSpaced(before, i, j - 1);
      LastRunPrecedesTrailing(before);
    }
  }

  lemma {:induction false} LastRunPrecedesTrailing(h: seq<Frame>)
    requires Runs(h) != []
    ensures Runs(h)[|Runs(h)| - 1].endFrame + Trailing(h) < |h|
  {
    var before := h[..|h| - 1];
    if Runs(before) != [] {
      LastRunPrecedesTrailing(before);
    }
  }

  /** The longest quiet stretch bounds every quiet stretch and is attained by one. */
  lemma {:induction false} LongestBoundsEveryStretch(h: seq<Frame>, from: nat, to: nat)
    requires from <= to <= |h| && AllQuiet(h, from, to)
    ensures to - from <= Longest(h)
  {
    if h != [] {
      var before := h[..|h| - 1];
      if to < |h| {
        LongestBoundsEveryStretch(before, from, to);
      } else {
        TrailingIsMaximal(h);
      }
    }
  }

  lemma {:induction false} LongestIsAttained(h: seq<Frame>)
    ensures exists from: nat, to: nat :: from <= to <= |h| && AllQuiet(h, from, to) && to - from == Longest(h)
  {
    if h == [] {
      assert AllQuiet(h, 0, 0);
    } else {
      var before := h[..|h| - 1];
      LongestIsAttained(before);
      var from: nat, to: nat :| from <= to <= |before| && AllQuiet(before, from, to) && to - from == Longest(before);
      assert AllQuiet(h, from, to);
      TrailingIsMaximal(h);
      assert AllQuiet(h, |h| - Trailing(h), |h|);
    }
  }

  // ----- cutting the history -----

  /** A longer history only adds runs. */
  lemma {:induction false} RunsGrow(h: seq<Frame>, from: nat)
    requires from <= |h|
    ensures Runs(h[..from]) <= Runs(h)
  {
    if from == |h| {
      assert h[..from] == h;
    } else {
      RunsGrow(h[..|h| - 1], from);
      assert h[..|h| - 1][..from] == h[..from];
    }
  }

  /** The runs ended by the frames from `from` on. */
  function RunsSince(h: seq<Frame>, from: nat): (runs: seq<Run>)
    requires from <= |h|
    ensures Runs(h) == Runs(h[..from]) + runs
  {
    RunsGrow(h, from);
    Runs(h)[|Runs(h[..from])|..]
  }

  /** They do end there: none of them ended before. */
  lemma RunsSinceEndLater(h: seq<Frame>, from: nat, i: nat)
    requires from <= |h| && i < |RunsSince(h, from)|
    ensures from <= RunsSince(h, from)[i].endFrame < |h|
  {
    var k := |Runs(h[..from])| + i;
    RunsAreSpaced(h, k, k);
    RunsEndingBefore(h, from, k);
  }

  lemma {:induction false} RunsEndingBefore(h: seq<Frame>, from: nat, k: nat)
    requires from <= |h| && |Runs(h[..from])| <= k < |Runs(h)|
    ensures Runs(h)[k].endFrame >= from
  {
    if from == |h| {
      WholePrefix(h);
      assert false;
    } else {
      var before := h[..|h| - 1];
      assert before[..from] == h[..from];
      if k < |Runs(before)| {
        RunsEndingBefore(before, from, k);
      }
    }
  }

  lemma WholePrefix(h: seq<Frame>)
    ensures h[..|h|] == h
  {}

  /** A stretch of fewer than 12,128 frames ends at most 13 runs. */
  lemma FewRunsPerReport(h: seq<Frame>, from: nat)
    requires from <= |h| && |h| - from <= 12_127
    ensures |RunsSince(h, from)| <= 13
  {
    var runs := RunsSince(h, from);
    if |runs| > 13 {
      var first := |Runs(h[..from])|;
      RunsSinceEndLater(h, from, 0);
      RunsAreSpaced(h, first, first + 13);
    }
  }

  // ----- counters -----

  datatype Totals = Totals(
    samples: nat, squared: real, peak: real, clipped: nat, nonFinite: nat, empty: nat)
  {
    function Plus(t: Totals): Totals {
      Totals(samples + t.samples, squared + t.squared, if peak < t.peak then t.peak else peak,
             clipped + t.clipped, nonFinite + t.nonFinite, empty + t.empty)
    }
  }

  function Nothing(): Totals {
    Totals(0, 0.0, 0.0, 0, 0, 0)
  }

  function SampleTotals(s: Sample): Totals {
    match s
    case NonFinite => Nothing().(nonFinite := 1)
    case Finite(x) => Totals(1, x * x, Abs(x), if Abs(x) >= CLIP_LEVEL then 1 else 0, 0, 0)
  }

  function ChannelTotals(frame: Frame): Totals {
    if frame == [] then Nothing()
    else ChannelTotals(frame[..|frame| - 1]).Plus(SampleTotals(frame[|frame| - 1]))
  }

  /** A frame without channels counts as empty. */
  function FrameTotals(frame: Frame): Totals {
    if frame == [] then Nothing().(empty := 1) else ChannelTotals(frame)
  }

  function TotalsOf(h: seq<Frame>): Totals {
    if h == [] then Nothing() else TotalsOf(h[..|h| - 1]).Plus(FrameTotals(h[|h| - 1]))
  }

  lemma {:induction false} TotalsAppend(a: seq<Frame>, b: seq<Frame>)
    ensures TotalsOf(a + b) == TotalsOf(a).Plus(TotalsOf(b))
  {
    hide FrameTotals, Totals.Plus;
    if b == [] {
      assert a + b == a;
      PeakIsNotNegative(a);
      PlusNothing(TotalsOf(a));
    } else {
      var n := |b| - 1;
      TotalsAppend(a, b[..n]);
      assert (a + b)[..|a| + n] == a + b[..n];
      PlusIsAssociative(TotalsOf(a), TotalsOf(b[..n]), FrameTotals(b[n]));
    }
  }

  lemma PlusIsAssociative(a: Totals, b: Totals, c: Totals)
    ensures a.Plus(b).Plus(c) == a.Plus(b.Plus(c))
  {}

  lemma PlusNothing(t: Totals)
    requires t.peak >= 0.0
    ensures t.Plus(Nothing()) == t
  {}

  lemma {:induction false} PeakIsNotNegative(h: seq<Frame>)
    ensures TotalsOf(h).peak >= 0.0
  {
    hide FrameTotals;
    if h != [] {
      PeakIsNotNegative(h[..|h| - 1]);
    }
  }
}
