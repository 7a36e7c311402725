/** The audio-thread meter of `benchmarks/browser_endurance.js` and the second implementation of
    its quiet-run detector in `benchmarks/decode_source_packets.c`, both at 48 kHz. */
module RaydioMeter {
  import opened Options
  import opened QuietRuns

  const QUANTUM: nat := 128
  const REPORT_FRAMES: nat := 12_000  // a quarter of a second
  const RUN_CAP: nat := 32

  // ----- blocks -----

  /** One `process` call: a sequence of samples per channel. */
  type Block = seq<seq<Sample>>

  function BlockLength(channels: Block): (n: nat)
    ensures n > 0
  {
    if channels == [] || |channels[0]| == 0 then QUANTUM else |channels[0]|
  }

  /** A missing sample reads as `undefined`, which is not finite. */
  function SampleAt(channel: seq<Sample>, i: nat): Sample {
    if i < |channel| then channel[i] else NonFinite
  }

  function FrameAt(channels: Block, i: nat): (frame: Frame)
    ensures |frame| == |channels|
  {
    seq(|channels|, c requires 0 <= c < |channels| => SampleAt(channels[c], i))
  }

  function FramesUpTo(channels: Block, n: nat): (frames: seq<Frame>)
    ensures |frames| == n
  {
    seq(n, i requires 0 <= i => FrameAt(channels, i))
  }

  function Frames(channels: Block): (frames: seq<Frame>)
    ensures |frames| == BlockLength(channels)
  {
    FramesUpTo(channels, BlockLength(channels))
  }

  // ----- reports -----

  datatype Report = Report(
    frames: nat, totals: Totals, longestQuietFrames: nat, ongoingQuietFrames: nat,
    quietRuns: seq<Run>, truncated: bool)

  function Capped(runs: seq<Run>): seq<Run> {
    if |runs| <= RUN_CAP then runs else runs[..RUN_CAP]
  }

  /** What a report says about the frames since the previous one, in terms of the whole history. */
  function ReportOf(h: seq<Frame>, from: nat): Report
    requires from <= |h|
  {
    Report(|h|, TotalsOf(h[from..]), Longest(h), Trailing(h),
           Capped(RunsSince(h, from)), |RunsSince(h, from)| > RUN_CAP)
  }

  // ----- the meter -----

  class Meter {
    var frames: nat
    var lastReport: nat
    var quiet: nat
    var longestQuiet: nat
    var counters: Totals  // samples, squared, peak, clipped, nonFinite and empty
    var quietRuns: seq<Run>
    var truncated: bool
    ghost var history: seq<Frame>  // every frame since the reset

    /** The fields follow from the history and from where the last report stood; `owed` is
        counted already but not yet visited. */
    ghost predicate Tracking(from: nat, owed: Totals)
      reads this
    {
      from <= |history| && frames == |history|
      && quiet == Trailing(history) && longestQuiet == Longest(history)
      && quietRuns == Capped(RunsSince(history, from))
      && truncated == (|RunsSince(history, from)| > RUN_CAP)
      && counters == TotalsOf(history[from..]).Plus(owed)
    }

    ghost predicate Valid()
      reads this
    {
      Tracking(lastReport, Nothing())
    }

    constructor ()
      ensures Valid() && history == [] && lastReport == 0
    {
      hide TotalsOf, Longest, Trailing, RunsSince, Totals.Plus;
      frames, lastReport, quiet := 0, 0, 0;
      longestQuiet, counters := 0, Nothing();
      quietRuns, truncated := [], false;
      history := [];
      new;
      NothingYet(history);
    }

    method Reset()
      modifies this
      ensures Valid() && history == [] && lastReport == 0
    {
      hide TotalsOf, Longest, Trailing, RunsSince, Totals.Plus;
      frames, lastReport, quiet := 0, 0, 0;
      longestQuiet, counters := 0, Nothing();
      quietRuns, truncated := [], false;
      history := [];
      NothingYet(history);
    }

    method SendReport() returns (report: Report)
      requires Valid()
      modifies this
      ensures Valid() && history == old(history) && lastReport == |history|
      ensures report == ReportOf(history, old(lastReport))
    {
      hide TotalsOf, RunsSince, Longest, Trailing, Totals.Plus;
      PeakIsNotNegative(history[lastReport..]);
      PlusNothing(TotalsOf(history[lastReport..]));
      report := Report(frames, counters, longestQuiet, quiet, quietRuns, truncated);
      counters, quietRuns, truncated := Nothing(), [], false;
      lastReport := frames;
      NothingSince(history);
      PlusNothing(Nothing());
    }

    /** Counts the samples of one frame and says whether it is quiet. */
    method CountFrame(channels: Block, i: nat) returns (isQuiet: bool)
      modifies this`counters
      ensures isQuiet == Quiet(FrameAt(channels, i))
      ensures counters.peak >= old(counters.peak)
      ensures old(counters.peak) >= 0.0 ==>
                counters == old(counters).Plus(ChannelTotals(FrameAt(channels, i)))
    {
      hide Totals.Plus, SampleTotals, Loud;
      isQuiet := true;
      ghost var frame := FrameAt(channels, i);
      assert ChannelTotals(frame[..0]) == Nothing();
      if counters.peak >= 0.0 {
        PlusNothing(counters);
      }
      var c := 0;
      while c < |channels|
        invariant 0 <= c <= |channels|
        invariant isQuiet == Quiet(frame[..c])
        invariant counters.peak >= old(counters.peak)
        invariant old(counters.peak) >= 0.0 ==> counters == old(counters).Plus(ChannelTotals(frame[..c]))
      {
        assert frame[..c + 1][..c] == frame[..c] && frame[..c + 1][c] == frame[c];
        var s := SampleAt(channels[c], i);
        CountSample(s);
        if Loud(s) {
          isQuiet := false;
        }
        c := c + 1;
        PlusIsAssociative(old(counters), ChannelTotals(frame[..c - 1]), SampleTotals(s));
      }
      assert frame[..c] == frame;
    }

    method CountSample(s: Sample)
      modifies this`counters
      ensures counters.peak >= old(counters.peak)
      ensures old(counters.peak) >= 0.0 ==> counters == old(counters).Plus(SampleTotals(s))
    {
      if s.NonFinite? {
        counters := counters.(nonFinite := counters.nonFinite + 1);
        return;
      }
      var v := Abs(s.x);
      counters := counters.(peak := if counters.peak < v then v else counters.peak,
                            samples := counters.samples + 1,
                            squared := counters.squared + s.x * s.x);
      if v >= CLIP_LEVEL {
        counters := counters.(clipped := counters.clipped + 1);
      }
    }

    /** The quiet bookkeeping of one frame, already counted in `frames`. */
    method TrackQuiet(isQuiet: bool)
      requires frames > 0
      modifies this`quiet, this`longestQuiet, this`quietRuns, this`truncated
      ensures quiet == if isQuiet then old(quiet) + 1 else 0
      ensures longestQuiet == if isQuiet then Max(old(longestQuiet), quiet) else old(longestQuiet)
      ensures var ended := !isQuiet && old(quiet) >= MIN_QUIET_FRAMES;
              var room := |old(quietRuns)| < RUN_CAP;
              quietRuns == (if ended && room then old(quietRuns) + [Run(frames - 1, old(quiet))]
                            else old(quietRuns))
              && truncated == (old(truncated) || (ended && !room))
    {
      if isQuiet {
        quiet := quiet + 1;
        longestQuiet := Max(longestQuiet, quiet);
      } else if quiet > 0 {
        if quiet >= MIN_QUIET_FRAMES {
          if |quietRuns| < RUN_CAP {
            quietRuns := quietRuns + [Run(frames - 1, quiet)];
          } else {
            truncated := true;
          }
        }
        quiet := 0;
      }
    }

    method ProcessFrame(channels: Block, i: nat, ghost from: nat, ghost left: nat)
      requires left > 0 && Tracking(from, EmptyFrames(channels, left))
      modifies this
      ensures Tracking(from, EmptyFrames(channels, left - 1))
      ensures history == old(history) + [FrameAt(channels, i)]
      ensures lastReport == old(lastReport) && frames == |history|
    {
      hide TotalsOf, ChannelTotals, FrameTotals, EmptyFrames, Totals.Plus, Capped, RunsSince, Runs,
        Longest, Trailing, Quiet, FrameAt;
      ghost var frame := FrameAt(channels, i);
      PeakSoFar(history[from..], channels, left);
      CountersAdvance(history, frame, from, channels, left);
      QuietAdvances(history, frame, from);
      var isQuiet := CountFrame(channels, i);
      frames := frames + 1;
      TrackQuiet(isQuiet);
      history := history + [frame];
    }

    /** One rendered block; a report is due once a quarter of a second has been rendered. */
    method Process(channels: Block) returns (report: Option<Report>)
      requires Valid()
      modifies this
      ensures Valid() && history == old(history) + Frames(channels)
      ensures report.Some? <==> |history| - old(lastReport) >= REPORT_FRAMES
      ensures lastReport == if report.Some? then |history| else old(lastReport)
      ensures report.Some? ==> report.value == ReportOf(history, old(lastReport))
    {
      hide Tracking;
      var n := BlockLength(channels);
      CountEmpty(channels, n);
      assert history + FramesUpTo(channels, 0) == history;
      var i := 0;
      while i < n
        invariant 0 <= i <= n && lastReport == old(lastReport) && frames == |history|
        invariant history == old(history) + FramesUpTo(channels, i)
        invariant Tracking(lastReport, EmptyFrames(channels, n - i))
      {
        ProcessFrame(channels, i, lastReport, n - i);
        assert FramesUpTo(channels, i + 1) == FramesUpTo(channels, i) + [FrameAt(channels, i)];
        i := i + 1;
      }
      assert EmptyFrames(channels, 0) == Nothing();
      report := None;
      if frames - lastReport >= REPORT_FRAMES {
        var sent := SendReport();
        report := Some(sent);
      }
    }

    method CountEmpty(channels: Block, n: nat)
      requires Valid()
      modifies this`counters
      ensures Tracking(lastReport, EmptyFrames(channels, n)) && frames == |history|
    {
      hide TotalsOf, Totals.Plus, RunsSince, Longest, Trailing;
      ghost var counted := TotalsOf(history[lastReport..]);
      PeakIsNotNegative(history[lastReport..]);
      PlusNothing(counted);
      EmptyFramesCounted(counted, channels, n);
      if channels == [] {
        counters := counters.(empty := counters.empty + n);
      }
    }
  }

  lemma NothingYet(h: seq<Frame>)
    requires h == []
    ensures TotalsOf(h[0..]).Plus(Nothing()) == Nothing()
    ensures Longest(h) == 0 && Trailing(h) == 0 && RunsSince(h, 0) == []
  {
    hide Totals.Plus;
    assert h[0..] == h;
    assert TotalsOf(h) == Nothing();
    PlusNothing(TotalsOf(h));
    assert Runs(h) == Runs(h[..0]) + RunsSince(h, 0);
  }

  lemma PlusKeepsPeak(t: Totals, more: Totals)
    ensures t.Plus(more).peak >= t.peak
  {}

  /** `empty` counts a block without channels at once, before its frames are visited. */
  function EmptyFrames(channels: Block, n: nat): Totals {
    Nothing().(empty := if channels == [] then n else 0)
  }

  lemma EmptyFramesCounted(t: Totals, channels: Block, n: nat)
    requires t.peak >= 0.0
    ensures t.Plus(EmptyFrames(channels, n)) == if channels == [] then t.(empty := t.empty + n) else t
  {}

  lemma OneMoreCounted(t: Totals, channels: Block, n: nat, frame: Frame)
    requires n > 0 && t.peak >= 0.0
    requires channels == [] <==> frame == []
    ensures t.Plus(EmptyFrames(channels, n)).Plus(ChannelTotals(frame))
            == t.Plus(FrameTotals(frame)).Plus(EmptyFrames(channels, n - 1))
  {
    if frame == [] {
      assert ChannelTotals(frame) == Nothing();
    } else {
      hide ChannelTotals;
      var counted := ChannelTotals(frame);
      assert FrameTotals(frame) == counted;
    }
  }

  lemma OneMoreTrailing(h: seq<Frame>, frame: Frame)
    ensures Trailing(h + [frame]) == if Quiet(frame) then Trailing(h) + 1 else 0
  {
    hide Quiet;
    assert (h + [frame])[..|h|] == h;
  }

  lemma OneMoreLongest(h: seq<Frame>, frame: Frame)
    ensures Longest(h + [frame]) == Max(Longest(h), Trailing(h + [frame]))
  {
    hide Trailing;
    assert (h + [frame])[..|h|] == h;
  }

  lemma OneMoreRuns(h: seq<Frame>, frame: Frame, from: nat)
    requires from <= |h|
    ensures RunsSince(h + [frame], from) == RunsSince(h, from) + EndedBy(h, frame)
  {
    hide RunsSince, EndedBy, Runs;
    var longer := h + [frame];
    RunsStep(h, frame);
    assert longer[..from] == h[..from];
    Cancel(Runs(h[..from]), RunsSince(longer, from), RunsSince(h, from), EndedBy(h, frame));
  }

  lemma OneMoreTotal(h: seq<Frame>, frame: Frame, from: nat)
    requires from <= |h|
    ensures TotalsOf((h + [frame])[from..]) == TotalsOf(h[from..]).Plus(FrameTotals(frame))
  {
    hide FrameTotals, Totals.Plus;
    assert (h + [frame])[from..] == h[from..] + [frame];
    assert (h[from..] + [frame])[..|h| - from] == h[from..];
  }

  lemma QuietAdvances(h: seq<Frame>, frame: Frame, from: nat)
    requires from <= |h|
    ensures Trailing(h + [frame]) == if Quiet(frame) then Trailing(h) + 1 else 0
    ensures Longest(h + [frame])
            == if Quiet(frame) then Max(Longest(h), Trailing(h) + 1) else Longest(h)
    ensures var ended := !Quiet(frame) && Trailing(h) >= MIN_QUIET_FRAMES;
            var room := |Capped(RunsSince(h, from))| < RUN_CAP;
            Capped(RunsSince(h + [frame], from))
            == (if ended && room then Capped(RunsSince(h, from)) + [Run(|h|, Trailing(h))]
                else Capped(RunsSince(h, from)))
            && ((|RunsSince(h + [frame], from)| > RUN_CAP)
                <==> (|RunsSince(h, from)| > RUN_CAP || (ended && !room)))
  {
    hide Trailing, Longest, Quiet, RunsSince;
    OneMoreTrailing(h, frame);
    OneMoreLongest(h, frame);
    OneMoreRuns(h, frame, from);
  }

  lemma PeakSoFar(h: seq<Frame>, channels: Block, left: nat)
    ensures TotalsOf(h).Plus(EmptyFrames(channels, left)).peak >= 0.0
  {
    hide TotalsOf, Totals.Plus, EmptyFrames;
    PeakIsNotNegative(h);
    PlusKeepsPeak(TotalsOf(h), EmptyFrames(channels, left));
  }

  lemma CountersAdvance(h: seq<Frame>, frame: Frame, from: nat, channels: Block, left: nat)
    requires from <= |h| && left > 0
    requires channels == [] <==> frame == []
    ensures TotalsOf(h[from..]).Plus(EmptyFrames(channels, left)).Plus(ChannelTotals(frame))
            == TotalsOf((h + [frame])[from..]).Plus(EmptyFrames(channels, left - 1))
  {
    hide TotalsOf, Totals.Plus, ChannelTotals, FrameTotals, EmptyFrames;
    PeakIsNotNegative(h[from..]);
    OneMoreCounted(TotalsOf(h[from..]), channels, left, frame);
    OneMoreTotal(h, frame, from);
  }

  lemma Cancel<T>(a: seq<T>, x: seq<T>, y: seq<T>, z: seq<T>)
    requires a + x == (a + y) + z
    ensures x == y + z
  {
    assert x == (a + x)[|a|..];
    assert y + z == ((a + y) + z)[|a|..];
  }

  lemma NothingSince(h: seq<Frame>)
    ensures ReportOf(h, |h|) == Report(|h|, Nothing(), Longest(h), Trailing(h), [], false)
  {
    WholePrefix(h);
  }

  // ----- a whole measurement -----

  /** What reaches the audio thread: blocks to render, and `flush` messages at any time. */
  datatype Input = Render(channels: Block) | Flush

  function AllFrames(inputs: seq<Input>): seq<Frame> {
    if inputs == [] then []
    else
      var last := inputs[|inputs| - 1];
      AllFrames(inputs[..|inputs| - 1]) + (if last.Render? then Frames(last.channels) else [])
  }

  function JoinedRuns(reports: seq<Report>): seq<Run> {
    if reports == [] then []
    else JoinedRuns(reports[..|reports| - 1]) + reports[|reports| - 1].quietRuns
  }

  function SummedTotals(reports: seq<Report>): Totals {
    if reports == [] then Nothing()
    else SummedTotals(reports[..|reports| - 1]).Plus(reports[|reports| - 1].totals)
  }

  ghost predicate SmallBlocks(inputs: seq<Input>) {
    forall i :: i in inputs && i.Render? ==> BlockLength(i.channels) <= QUANTUM
  }

  ghost predicate Complete(reports: seq<Report>) {
    forall r :: r in reports ==> !r.truncated
  }

  /** What the reports up to frame `at` have said about the history `h`. */
  ghost predicate Told(reports: seq<Report>, h: seq<Frame>, at: nat) {
    at <= |h|
    && SummedTotals(reports) == TotalsOf(h[..at])
    && (Complete(reports) ==> JoinedRuns(reports) == Runs(h[..at]))
  }

  lemma TellMore(reports: seq<Report>, h: seq<Frame>, at: nat)
    requires Told(reports, h, at)
    ensures Told(reports + [ReportOf(h, at)], h, |h|)
  {
    hide Runs, RunsSince, TotalsOf, Totals.Plus, Longest, Trailing;
    var more := reports + [ReportOf(h, at)];
    assert more[..|reports|] == reports;
    WholePrefix(h);
    TotalsAppend(h[..at], h[at..]);
    assert h == h[..at] + h[at..];
    if Complete(more) {
      assert ReportOf(h, at) in more && forall r :: r in reports ==> r in more;
    }
  }

  lemma TellingIsStable(reports: seq<Report>, h: seq<Frame>, at: nat, more: seq<Frame>)
    requires Told(reports, h, at)
    ensures Told(reports, h + more, at)
  {
    assert (h + more)[..at] == h[..at];
  }

  /** What a last report says of the whole history. */
  predicate Concludes(last: Report, h: seq<Frame>) {
    last.frames == |h| && last.longestQuietFrames == Longest(h) && last.ongoingQuietFrames == Trailing(h)
  }

  /** Any cutting into blocks, with reports at any moment and a final one: the reports add up to
      the single pass. With blocks of at most 128 frames no report is ever truncated, and none
      carries more than 13 runs. */
  method Measure(inputs: seq<Input>) returns (reports: seq<Report>)
    ensures SummedTotals(reports) == TotalsOf(AllFrames(inputs))
    ensures Complete(reports) ==> JoinedRuns(reports) == Runs(AllFrames(inputs))
    ensures SmallBlocks(inputs) ==>
              Complete(reports) && forall r :: r in reports ==> |r.quietRuns| <= 13
    ensures reports != [] && Concludes(reports[|reports| - 1], AllFrames(inputs))
  {
    hide Runs, RunsSince, TotalsOf, Longest, Trailing, Frames, Told, SmallBlocks;
    var meter := new Meter();
    reports := [];
    NothingTold(meter.history);
    var i := 0;
    while i < |inputs|
      invariant 0 <= i <= |inputs| && meter.Valid() && fresh(meter)
      invariant meter.history == AllFrames(inputs[..i])
      invariant Told(reports, meter.history, meter.lastReport)
      invariant |meter.history| - meter.lastReport < REPORT_FRAMES
      invariant SmallBlocks(inputs) ==> forall r :: r in reports ==> Short(r)
    {
      assert inputs[..i + 1][..i] == inputs[..i];
      match inputs[i] {
      case Render(channels) =>
        TellingIsStable(reports, meter.history, meter.lastReport, Frames(channels));
        SmallBlock(inputs, i);
        ghost var from := meter.lastReport;
        var report := meter.Process(channels);
        if report.Some? {
          TellMore(reports, meter.history, from);
          if SmallBlocks(inputs) {
            ShortReport(meter.history, from);
          }
          reports := reports + [report.value];
        }
      case Flush =>
        TellMore(reports, meter.history, meter.lastReport);
        ShortReport(meter.history, meter.lastReport);
        var report := meter.SendReport();
        reports := reports + [report];
      }
      i := i + 1;
    }
    assert inputs[..i] == inputs;
    TellMore(reports, meter.history, meter.lastReport);
    ShortReport(meter.history, meter.lastReport);
    var report := meter.SendReport();
    reports := reports + [report];
    ToldAll(reports, meter.history);
  }

  predicate Short(r: Report) {
    !r.truncated && |r.quietRuns| <= 13
  }

  lemma ShortReport(h: seq<Frame>, from: nat)
    requires from <= |h| && |h| - from < REPORT_FRAMES + QUANTUM
    ensures Short(ReportOf(h, from))
  {
    FewRunsPerReport(h, from);
  }

  lemma SmallBlock(inputs: seq<Input>, i: nat)
    requires i < |inputs| && inputs[i].Render?
    ensures SmallBlocks(inputs) ==> |Frames(inputs[i].channels)| <= QUANTUM
  {}

  lemma NothingTold(h: seq<Frame>)
    requires h == []
    ensures Told([], h, 0)
  {
    assert h[..0] == h;
  }

  lemma ToldAll(reports: seq<Report>, h: seq<Frame>)
    requires Told(reports, h, |h|)
    ensures SummedTotals(reports) == TotalsOf(h)
    ensures Complete(reports) ==> JoinedRuns(reports) == Runs(h)
  {
    WholePrefix(h);
  }
}
