/** What the counters of the two meters count, in `benchmarks/browser_endurance.js` and
    `benchmarks/decode_source_packets.c`, over any history of frames. */
module MeterMeaning {
  import opened QuietRuns
  import opened SourceDecoder
  import RaydioMeter

  // ----- frames -----

  /** A frame is quiet exactly if every finite sample lies within the quiet level. */
  lemma QuietExactly(frame: Frame)
    ensures Quiet(frame)
            <==> forall c :: 0 <= c < |frame| && frame[c].Finite? ==> -0.00001 <= frame[c].x <= 0.00001
  {
    if forall c :: 0 <= c < |frame| && frame[c].Finite? ==> -0.00001 <= frame[c].x <= 0.00001 {
      forall s | s in frame ensures !Loud(s) {
        var c :| 0 <= c < |frame| && frame[c] == s;
      }
    }
    forall c | 0 <= c < |frame| && !Loud(frame[c]) && frame[c].Finite?
      ensures -0.00001 <= frame[c].x <= 0.00001
    {}
    if Quiet(frame) {
      forall c | 0 <= c < |frame| ensures !Loud(frame[c]) {
        assert frame[c] in frame;
      }
    }
  }

  /** A block is read across its channels: as many frames as its first channel has samples, or 128 if it has
      none, each with one sample of every channel. */
  lemma BlocksAreReadAcross(channels: RaydioMeter.Block, i: nat, c: nat)
    requires c < |channels| && i < |channels[c]|
    ensures var frames := RaydioMeter.Frames(channels);
            |frames| == (if |channels[0]| == 0 then 128 else |channels[0]|)
            && (i < |frames| ==> |frames[i]| == |channels| && frames[i][c] == channels[c][i])
  {}

  /** The decoder hears both samples of each pair, left first. */
  lemma PairsAreHeardInOrder(pcm: seq<Stereo>, i: nat)
    requires i < |pcm|
    ensures |StereoFrames(pcm)[i]| == 2
    ensures StereoFrames(pcm)[i][0] == pcm[i].0 && StereoFrames(pcm)[i][1] == pcm[i].1
  {}

  // ----- samples -----

  /** Every sample of the history, frame by frame. */
  function Samples(h: seq<Frame>): seq<Sample> {
    if h == [] then [] else Samples(h[..|h| - 1]) + h[|h| - 1]
  }

  function NonFinites(s: seq<Sample>): nat {
    multiset(s)[NonFinite]
  }

  predicate Clips(s: Sample) {
    s.Finite? && (s.x >= CLIP_LEVEL || s.x <= -CLIP_LEVEL)
  }

  /** The positions of the samples at or above the clip level. */
  function ClipsAt(s: seq<Sample>): seq<nat> {
    if s == [] then []
    else ClipsAt(s[..|s| - 1]) + if Clips(s[|s| - 1]) then [|s| - 1] else []
  }

  lemma {:induction false} ClipsAtExactly(s: seq<Sample>)
    ensures var at := ClipsAt(s);
            (forall i :: 0 <= i < |at| ==> at[i] < |s| && Clips(s[at[i]]))
            && (forall i, j :: 0 <= i < j < |at| ==> at[i] < at[j])
            && (forall k: nat :: k < |s| && Clips(s[k]) ==> k in at)
  {
    if s != [] {
      ClipsAtExactly(s[..|s| - 1]);
    }
  }

  function EmptyFrames(h: seq<Frame>): nat {
    multiset(h)[[]]
  }

  // ----- counts -----

  /** What a frame's own counters count. */
  lemma {:induction false} ChannelCounts(frame: Frame)
    ensures var t := ChannelTotals(frame);
            t.samples + t.nonFinite == |frame| && t.nonFinite == NonFinites(frame)
            && t.clipped == |ClipsAt(frame)| && t.empty == 0
  {
    if frame != [] {
      var n := |frame| - 1;
      ChannelCounts(frame[..n]);
      assert frame == frame[..n] + [frame[n]];
    }
  }

  lemma {:induction false} ClipsAppend(a: seq<Sample>, b: seq<Sample>)
    ensures |ClipsAt(a + b)| == |ClipsAt(a)| + |ClipsAt(b)|
  {
    if b == [] {
      assert a + b == a;
    } else {
      ClipsAppend(a, b[..|b| - 1]);
      assert (a + b)[..|a + b| - 1] == a + b[..|b| - 1];
    }
  }

  /** Samples are counted once each as finite or not; clips and empty frames are counted exactly. */
  lemma {:induction false} CountsExactly(h: seq<Frame>)
    ensures var t := TotalsOf(h);
            t.samples + t.nonFinite == |Samples(h)| && t.nonFinite == NonFinites(Samples(h))
            && t.clipped == |ClipsAt(Samples(h))| && t.empty == EmptyFrames(h)
  {
    hide ChannelTotals, ClipsAt;
    if h == [] {
      assert ClipsAt(Samples(h)) == [] by { NoClips(); }
    } else {
      var n := |h| - 1;
      CountsExactly(h[..n]);
      ChannelCounts(h[n]);
      ClipsAppend(Samples(h[..n]), h[n]);
      assert h == h[..n] + [h[n]];
      if h[n] == [] {
        assert Samples(h) == Samples(h[..n]);
      }
    }
  }

  lemma NoClips()
    ensures ClipsAt([]) == []
  {}

  // ----- the peak -----

  /** The peak bounds every finite sample, and is reached by one or is zero. */
  ghost predicate IsPeak(peak: real, s: seq<Sample>) {
    (forall i :: 0 <= i < |s| && s[i].Finite? ==> -peak <= s[i].x <= peak)
    && (peak == 0.0 || exists i :: 0 <= i < |s| && s[i].Finite? && (s[i].x == peak || s[i].x == -peak))
  }

  lemma PeakJoins(p: real, a: seq<Sample>, q: real, b: seq<Sample>)
    requires IsPeak(p, a) && IsPeak(q, b) && p >= 0.0 && q >= 0.0
    ensures IsPeak(if p < q then q else p, a + b)
  {
    var both := a + b;
    var peak := if p < q then q else p;
    if p < q {
      var i :| 0 <= i < |b| && b[i].Finite? && (b[i].x == q || b[i].x == -q);
      assert both[|a| + i] == b[i];
    } else if p != 0.0 {
      var i :| 0 <= i < |a| && a[i].Finite? && (a[i].x == p || a[i].x == -p);
      assert both[i] == a[i];
    }
  }

  lemma {:induction false} ChannelPeak(frame: Frame)
    ensures ChannelTotals(frame).peak >= 0.0 && IsPeak(ChannelTotals(frame).peak, frame)
  {
    hide IsPeak;
    if frame == [] {
      NoPeak();
    } else {
      var n := |frame| - 1;
      ChannelPeak(frame[..n]);
      OnePeak(frame[n]);
      PeakJoins(ChannelTotals(frame[..n]).peak, frame[..n], SampleTotals(frame[n]).peak, [frame[n]]);
      assert frame == frame[..n] + [frame[n]];
    }
  }

  lemma NoPeak()
    ensures IsPeak(0.0, [])
  {}

  lemma OnePeak(s: Sample)
    ensures SampleTotals(s).peak >= 0.0 && IsPeak(SampleTotals(s).peak, [s])
  {
    assert [s][0] == s;
  }

  lemma {:induction false} PeakExactly(h: seq<Frame>)
    ensures TotalsOf(h).peak >= 0.0 && IsPeak(TotalsOf(h).peak, Samples(h))
  {
    hide IsPeak, ChannelTotals;
    if h == [] {
      NoPeak();
    } else {
      var n := |h| - 1;
      PeakExactly(h[..n]);
      ChannelPeak(h[n]);
      PeakJoins(TotalsOf(h[..n]).peak, Samples(h[..n]), ChannelTotals(h[n]).peak, h[n]);
      if h[n] == [] {
        NoPeak();
        assert Samples(h) == Samples(h[..n]);
        EmptyChannel(h[n]);
      }
    }
  }

  lemma EmptyChannel(frame: Frame)
    requires frame == []
    ensures ChannelTotals(frame) == Nothing()
  {}

  // ----- loudness -----

  function SumOfSquares(s: seq<Sample>): real {
    if s == [] then 0.0
    else
      var last := s[|s| - 1];
      SumOfSquares(s[..|s| - 1]) + if last.Finite? then last.x * last.x else 0.0
  }

  lemma {:induction false} SquaresAppend(a: seq<Sample>, b: seq<Sample>)
    ensures SumOfSquares(a + b) == SumOfSquares(a) + SumOfSquares(b)
  {
    if b == [] {
      assert a + b == a;
    } else {
      SquaresAppend(a, b[..|b| - 1]);
      assert (a + b)[..|a + b| - 1] == a + b[..|b| - 1];
    }
  }

  lemma {:induction false} ChannelSquares(frame: Frame)
    ensures ChannelTotals(frame).squared == SumOfSquares(frame)
  {
    if frame != [] {
      ChannelSquares(frame[..|frame| - 1]);
    }
  }

  /** The sum of squares is over all finite samples. */
  lemma {:induction false} SquaredExactly(h: seq<Frame>)
    ensures TotalsOf(h).squared == SumOfSquares(Samples(h))
  {
    hide ChannelTotals, SumOfSquares;
    if h == [] {
      NoSquares();
    } else {
      var n := |h| - 1;
      SquaredExactly(h[..n]);
      ChannelSquares(h[n]);
      SquaresAppend(Samples(h[..n]), h[n]);
      if h[n] == [] {
        NoSquares();
      }
    }
  }

  lemma NoSquares()
    ensures SumOfSquares([]) == 0.0
  {}

  function Louder(s: Sample, k: real): Sample {
    if s.Finite? then Finite(k * s.x) else s
  }

  function LouderFrame(frame: Frame, k: real): (louder: Frame)
    ensures |louder| == |frame|
  {
    seq(|frame|, i requires 0 <= i < |frame| => Louder(frame[i], k))
  }

  function LouderFrames(h: seq<Frame>, k: real): (louder: seq<Frame>)
    ensures |louder| == |h|
  {
    seq(|h|, i requires 0 <= i < |h| => LouderFrame(h[i], k))
  }

  lemma SquareScales(k: real, x: real)
    ensures (k * x) * (k * x) == (k * k) * (x * x)
  {}

  lemma AbsScales(k: real, x: real)
    ensures Abs(k * x) == Abs(k) * Abs(x)
  {}

  lemma SumScales(f: real, a: real, b: real)
    ensures f * (a + b) == f * a + f * b
  {}

  lemma MaxScales(f: real, a: real, b: real)
    requires f >= 0.0
    ensures f * (if a < b then b else a) == if f * a < f * b then f * b else f * a
  {
    if a < b {
      assert f * (b - a) >= 0.0;
    } else {
      assert f * (a - b) >= 0.0;
    }
  }

  /** `louder` are the counters of samples `k` times as large. */
  predicate Scaled(louder: Totals, t: Totals, k: real) {
    louder.squared == (k * k) * t.squared && louder.peak == Abs(k) * t.peak
  }

  lemma ScaledNothing(k: real, louder: Totals, t: Totals)
    requires louder.squared == 0.0 && t.squared == 0.0 && louder.peak == 0.0 && t.peak == 0.0
    ensures Scaled(louder, t, k)
  {}

  lemma ScaledPlus(k: real, la: Totals, a: Totals, lb: Totals, b: Totals)
    requires Scaled(la, a, k) && Scaled(lb, b, k)
    ensures Scaled(la.Plus(lb), a.Plus(b), k)
  {
    SumScales(k * k, a.squared, b.squared);
    MaxScales(Abs(k), a.peak, b.peak);
  }

  lemma LouderSample(s: Sample, k: real)
    ensures Scaled(SampleTotals(Louder(s, k)), SampleTotals(s), k)
  {
    hide Abs;
    if s.Finite? {
      var x := s.x;
      var y := k * x;
      SquareScales(k, x);
      AbsScales(k, x);
      assert y * y == (k * k) * (x * x);
      assert SampleTotals(Finite(y)).squared == y * y && SampleTotals(s).squared == x * x;
      assert Louder(s, k) == Finite(y);
    } else {
      ScaledNothing(k, SampleTotals(s), SampleTotals(s));
    }
  }

  lemma {:induction false} LouderChannel(frame: Frame, k: real)
    ensures Scaled(ChannelTotals(LouderFrame(frame, k)), ChannelTotals(frame), k)
  {
    hide Scaled, SampleTotals, Totals.Plus;
    var louder := LouderFrame(frame, k);
    if frame == [] {
      ScaledNothing(k, ChannelTotals(louder), ChannelTotals(frame));
    } else {
      var n := |frame| - 1;
      LouderChannel(frame[..n], k);
      assert louder[..n] == LouderFrame(frame[..n], k);
      LouderSample(frame[n], k);
      ScaledPlus(k, ChannelTotals(louder[..n]), ChannelTotals(frame[..n]), SampleTotals(louder[n]),
                 SampleTotals(frame[n]));
    }
  }

  lemma LouderFrameTotals(frame: Frame, k: real)
    ensures Scaled(FrameTotals(LouderFrame(frame, k)), FrameTotals(frame), k)
  {
    hide ChannelTotals, Scaled;
    LouderChannel(frame, k);
    if frame == [] {
      ScaledNothing(k, FrameTotals(LouderFrame(frame, k)), FrameTotals(frame));
    }
  }

  lemma {:induction false} LouderHistory(h: seq<Frame>, k: real)
    ensures Scaled(TotalsOf(LouderFrames(h, k)), TotalsOf(h), k)
  {
    hide FrameTotals, Scaled, Totals.Plus;
    var louder := LouderFrames(h, k);
    if h == [] {
      ScaledNothing(k, TotalsOf(louder), TotalsOf(h));
    } else {
      var n := |h| - 1;
      LouderHistory(h[..n], k);
      assert louder[..n] == LouderFrames(h[..n], k);
      LouderFrameTotals(h[n], k);
      ScaledPlus(k, TotalsOf(louder[..n]), TotalsOf(h[..n]), FrameTotals(louder[n]), FrameTotals(h[n]));
    }
  }

  /** Samples k times as large multiply the sum of squares by k squared and the peak by the size of k. */
  lemma LouderTotals(h: seq<Frame>, k: real)
    ensures TotalsOf(LouderFrames(h, k)).squared == (k * k) * TotalsOf(h).squared
    ensures TotalsOf(LouderFrames(h, k)).peak == Abs(k) * TotalsOf(h).peak
  {
    hide TotalsOf, Abs;
    LouderHistory(h, k);
  }

  // ----- the decoder's intervals -----

  /** A printed interval starts and lasts exactly as its run does, in seconds and milliseconds. */
  lemma IntervalSpansItsRun(end: nat, frames: nat, atEnd: bool)
    ensures var i := IntervalAt(end, frames, atEnd);
            i.startSeconds * 48000.0 + i.durationMs * 48.0 == end as real
            && i.durationMs * 48.0 == frames as real && i.atEnd == atEnd
  {}
}
