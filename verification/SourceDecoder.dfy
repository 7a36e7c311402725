/** The quiet-interval loop of `benchmarks/decode_source_packets.c`: the second implementation of
    the meter's detector, over decoded stereo packets. */
module SourceDecoder {
  import opened QuietRuns

  const PACKET_LIMIT: nat := 15_000
  const MAX_PACKET_BYTES: nat := 1275

  type Stereo = (Sample, Sample)

  /** A length-prefixed packet with what libopus decodes it to, or bytes that end too early. */
  datatype Packet = Unreadable | Packet(length: nat, pcm: seq<Stereo>)

  predicate Decodable(p: Packet) {
    p.Packet? && 1 <= p.length <= MAX_PACKET_BYTES && p.pcm != []
  }

  datatype Interval = Interval(startSeconds: real, durationMs: real, atEnd: bool)

  datatype Audit = Audit(
    intervals: seq<Interval>, packets: nat, samples: nat, longest: nat, totals: Totals, failed: bool)

  function StereoFrame(s: Stereo): Frame {
    [s.0, s.1]
  }

  function StereoFrames(pcm: seq<Stereo>): (frames: seq<Frame>)
    ensures |frames| == |pcm|
  {
    seq(|pcm|, i requires 0 <= i < |pcm| => StereoFrame(pcm[i]))
  }

  function SourceFrames(packets: seq<Packet>): seq<Frame> {
    if packets == [] then []
    else
      var last := packets[|packets| - 1];
      SourceFrames(packets[..|packets| - 1]) + (if last.Packet? then StereoFrames(last.pcm) else [])
  }

  /** How many leading packets are decoded before the first bad one, or the limit. */
  ghost predicate Decodes(packets: seq<Packet>, n: nat) {
    n <= |packets| && n <= PACKET_LIMIT
    && (forall i :: 0 <= i < n ==> Decodable(packets[i]))
    && (n < |packets| ==> n == PACKET_LIMIT || !Decodable(packets[n]))
  }

  /** The printed interval of a quiet stretch ending before frame `end`. */
  function IntervalAt(end: nat, frames: nat, atEnd: bool): Interval {
    Interval((end as real - frames as real) / 48000.0, frames as real / 48.0, atEnd)
  }

  function ClosedIntervals(runs: seq<Run>): seq<Interval> {
    if runs == [] then []
    else
      var last := runs[|runs| - 1];
      ClosedIntervals(runs[..|runs| - 1]) + [IntervalAt(last.endFrame, last.frames, false)]
  }

  /** The stretch that is still open when the source ends. */
  function OpenInterval(h: seq<Frame>): seq<Interval> {
    if Trailing(h) >= MIN_QUIET_FRAMES then [IntervalAt(|h|, Trailing(h), true)] else []
  }

  /** The counters after the frames `h`. */
  ghost predicate Heard(audit: Audit, quiet: nat, h: seq<Frame>) {
    audit.samples == |h| && quiet == Trailing(h) && audit.longest == Longest(h)
    && audit.totals == TotalsOf(h) && audit.intervals == ClosedIntervals(Runs(h))
  }

  /** The decoder reports the very runs of the meter's specification, plus the open one. */
  method DecodeSource(packets: seq<Packet>) returns (audit: Audit)
    ensures Decodes(packets, audit.packets)
    ensures audit.failed <==> audit.packets < |packets|
    ensures var h := SourceFrames(packets[..audit.packets]);
            audit.samples == |h|
            && audit.intervals == ClosedIntervals(Runs(h)) + OpenInterval(h)
            && audit.longest == Longest(h)
            && audit.totals == TotalsOf(h)
  {
    hide Runs, TotalsOf, Longest, Trailing, Heard, ClosedIntervals;
    audit := Audit([], 0, 0, 0, Nothing(), false);
    var quiet: nat := 0;
    ghost var h: seq<Frame> := [];
    NothingHeard(h);
    while audit.packets < |packets| && !audit.failed
      invariant audit.packets <= |packets| && audit.packets <= PACKET_LIMIT
      invariant forall i :: 0 <= i < audit.packets ==> Decodable(packets[i])
      invariant audit.failed ==>
                  audit.packets < |packets|
                  && (audit.packets == PACKET_LIMIT || !Decodable(packets[audit.packets]))
      invariant h == SourceFrames(packets[..audit.packets])
      invariant Heard(audit, quiet, h)
      decreases |packets| - audit.packets, !audit.failed
    {
      var packet := packets[audit.packets];
      if !Decodable(packet) || audit.packets == PACKET_LIMIT {
        FlagsAreNotHeard(audit, quiet, h, audit.packets, true);
        audit := audit.(failed := true);
      } else {
        NextPacket(packets, audit.packets);
        audit, quiet, h := HearPacket(audit, quiet, packet, h);
        FlagsAreNotHeard(audit, quiet, h, audit.packets + 1, false);
        audit := audit.(packets := audit.packets + 1);
      }
    }
    HeardAll(audit, quiet, h);
    if quiet >= MIN_QUIET_FRAMES {
      audit := audit.(intervals := audit.intervals + [IntervalAt(audit.samples, quiet, true)]);
    }
  }

  /** The sample loop over one decoded packet. */
  method HearPacket(audit: Audit, quiet: nat, packet: Packet, ghost h: seq<Frame>)
    returns (after: Audit, quietAfter: nat, ghost heard: seq<Frame>)
    requires Decodable(packet) && Heard(audit, quiet, h)
    ensures heard == h + StereoFrames(packet.pcm) && Heard(after, quietAfter, heard)
    ensures (after.packets, after.failed)
            == (audit.packets, audit.failed)
  {
    hide Heard;
    after, quietAfter, heard := audit, quiet, h;
    var i := 0;
    while i < |packet.pcm|
      invariant 0 <= i <= |packet.pcm|
      invariant heard == h + StereoFrames(packet.pcm)[..i]
      invariant Heard(after, quietAfter, heard)
      invariant (after.packets, after.failed)
                == (audit.packets, audit.failed)
    {
      after, quietAfter := HearFrame(after, quietAfter, packet.pcm[i], heard);
      heard := heard + [StereoFrame(packet.pcm[i])];
      i := i + 1;
    }
  }

  method HearFrame(audit: Audit, quiet: nat, s: Stereo, ghost h: seq<Frame>)
    returns (after: Audit, quietAfter: nat)
    requires Heard(audit, quiet, h)
    ensures Heard(after, quietAfter, h + [StereoFrame(s)])
    ensures (after.packets, after.failed)
            == (audit.packets, audit.failed)
  {
    hide Runs, TotalsOf, Longest, Trailing, Totals.Plus, SampleTotals, Loud;
    HeardMore(h, s);
    var counted := audit.totals.Plus(SampleTotals(s.0)).Plus(SampleTotals(s.1));
    after, quietAfter := audit.(totals := counted), quiet;
    if !Loud(s.0) && !Loud(s.1) {
      quietAfter := quiet + 1;
      if quietAfter > after.longest {
        after := after.(longest := quietAfter);
      }
    } else if quiet > 0 {
      if quiet >= MIN_QUIET_FRAMES {
        after := after.(intervals := after.intervals + [IntervalAt(audit.samples, quiet, false)]);
      }
      quietAfter := 0;
    }
    after := after.(samples := after.samples + 1);
  }

  lemma HeardMore(h: seq<Frame>, s: Stereo)
    ensures var longer := h + [StereoFrame(s)];
            Trailing(longer) == (if Loud(s.0) || Loud(s.1) then 0 else Trailing(h) + 1)
            && Longest(longer) == Max(Longest(h), Trailing(longer))
            && TotalsOf(longer) == TotalsOf(h).Plus(SampleTotals(s.0)).Plus(SampleTotals(s.1))
            && ClosedIntervals(Runs(longer))
               == ClosedIntervals(Runs(h))
                  + (if (Loud(s.0) || Loud(s.1)) && Trailing(h) >= MIN_QUIET_FRAMES
                     then [IntervalAt(|h|, Trailing(h), false)] else [])
  {
    StereoQuiet(h, s);
    StereoCounters(h, s);
    StereoIntervals(h, s);
  }

  lemma StereoQuiet(h: seq<Frame>, s: Stereo)
    ensures Quiet(StereoFrame(s)) <==> !Loud(s.0) && !Loud(s.1)
    ensures var longer := h + [StereoFrame(s)];
            Trailing(longer) == (if Loud(s.0) || Loud(s.1) then 0 else Trailing(h) + 1)
            && Longest(longer) == Max(Longest(h), Trailing(longer))
  {
    hide Loud;
    assert StereoFrame(s)[0] == s.0 && StereoFrame(s)[1] == s.1;
    assert (h + [StereoFrame(s)])[..|h|] == h;
  }

  lemma StereoCounters(h: seq<Frame>, s: Stereo)
    ensures TotalsOf(h + [StereoFrame(s)])
            == TotalsOf(h).Plus(SampleTotals(s.0)).Plus(SampleTotals(s.1))
  {
    hide Totals.Plus, SampleTotals;
    var frame := StereoFrame(s);
    assert (h + [frame])[..|h|] == h;
    assert frame[..1] == [s.0] && [s.0][..0] == [];
    assert ChannelTotals([s.0]) == Nothing().Plus(SampleTotals(s.0));
    PlusIsAssociative(TotalsOf(h), ChannelTotals([s.0]), SampleTotals(s.1));
    PlusIsAssociative(TotalsOf(h), Nothing(), SampleTotals(s.0));
    PeakIsNotNegative(h);
    PlusNothing(TotalsOf(h));
  }

  lemma StereoIntervals(h: seq<Frame>, s: Stereo)
    ensures ClosedIntervals(Runs(h + [StereoFrame(s)]))
            == ClosedIntervals(Runs(h))
               + (if (Loud(s.0) || Loud(s.1)) && Trailing(h) >= MIN_QUIET_FRAMES
                  then [IntervalAt(|h|, Trailing(h), false)] else [])
  {
    hide Runs, Trailing, Quiet, Loud, StereoFrame, ClosedIntervals;
    StereoQuiet(h, s);
    RunsStep(h, StereoFrame(s));
    ClosedIntervalsStep(Runs(h), Run(|h|, Trailing(h)));
  }

  lemma ClosedIntervalsStep(runs: seq<Run>, run: Run)
    ensures ClosedIntervals(runs + [run])
            == ClosedIntervals(runs) + [IntervalAt(run.endFrame, run.frames, false)]
    ensures runs + [] == runs && ClosedIntervals(runs) + [] == ClosedIntervals(runs)
  {
    assert (runs + [run])[..|runs|] == runs;
  }

  lemma NextPacket(packets: seq<Packet>, n: nat)
    requires n < |packets| && Decodable(packets[n])
    ensures SourceFrames(packets[..n + 1]) == SourceFrames(packets[..n]) + StereoFrames(packets[n].pcm)
  {
    hide StereoFrames;
    assert packets[..n + 1][..n] == packets[..n];
  }

  lemma NothingHeard(h: seq<Frame>)
    requires h == []
    ensures Heard(Audit([], 0, 0, 0, Nothing(), false), 0, h)
  {}

  lemma FlagsAreNotHeard(audit: Audit, quiet: nat, h: seq<Frame>, packets: nat, failed: bool)
    requires Heard(audit, quiet, h)
    ensures Heard(audit.(failed := failed), quiet, h) && Heard(audit.(packets := packets), quiet, h)
  {
    hide Runs, TotalsOf, Longest, Trailing;
  }

  lemma HeardAll(audit: Audit, quiet: nat, h: seq<Frame>)
    requires Heard(audit, quiet, h)
    ensures audit.samples == |h| && quiet == Trailing(h) && audit.longest == Longest(h)
    ensures audit.totals == TotalsOf(h) && audit.intervals == ClosedIntervals(Runs(h))
  {
    hide Runs, TotalsOf, Longest, Trailing;
  }
}
