/** The sender trace summary of `benchmarks/summarize_send_trace.py`. */
module SendTrace {
  import opened Options
  import opened OrderedMap
  import opened Sorting

  const SEQUENCE_MODULUS: int := 0x1_0000
  const TIMESTAMP_MODULUS: int := 0x1_0000_0000
  const FRAME_SAMPLES: int := 960
  const GAP_MICROS: int := 40_000

  /** One packet's record; `timing` is its optional stage timing. */
  datatype Row = Row(
    index: nat, at: nat, transport: nat, source: nat, ssrc: nat, timestamp: nat, sequence: nat,
    silence: bool, timing: Option<seq<nat>>)

  datatype Line = Noise | Malformed | Batch(epoch: nat, dropped: nat, rows: seq<Row>)

  datatype Stream = Stream(records: Dict<int, Row>, dropped: nat, conflicts: nat)

  function NoStream(): Stream {
    Stream(Empty(), 0, 0)
  }

  // ----- parsing -----

  function AddRow(s: Stream, row: Row): Stream {
    var conflict := s.records.Has(row.index) && s.records.Get(row.index) != row;
    s.(records := s.records.Put(row.index, row), conflicts := s.conflicts + if conflict then 1 else 0)
  }

  function AddRows(s: Stream, rows: seq<Row>): (r: Stream)
    ensures s.records.Valid() ==> r.records.Valid()
  {
    if rows == [] then s else AddRow(AddRows(s, rows[..|rows| - 1]), rows[|rows| - 1])
  }

  function StreamOf(streams: Dict<int, Stream>, epoch: int): Stream {
    if streams.Has(epoch) then streams.Get(epoch) else NoStream()
  }

  function Max(a: int, b: int): int {
    if a < b then b else a
  }

  function AddBatch(s: Stream, dropped: nat, rows: seq<Row>): Stream {
    AddRows(s.(dropped := Max(s.dropped, dropped)), rows)
  }

  /** The streams by epoch, and the number of malformed batches. */
  function Parsed(lines: seq<Line>): (r: (Dict<int, Stream>, nat))
    ensures r.0.Valid() && forall e :: r.0.Has(e) ==> r.0.Get(e).records.Valid()
  {
    if lines == [] then (Empty(), 0)
    else
      var (streams, malformed) := Parsed(lines[..|lines| - 1]);
      match lines[|lines| - 1]
      case Noise => (streams, malformed)
      case Malformed => (streams, malformed + 1)
      case Batch(epoch, dropped, rows) =>
        (streams.Put(epoch, AddBatch(StreamOf(streams, epoch), dropped, rows)), malformed)
  }

  method ParseTraces(lines: seq<Line>) returns (streams: Dict<int, Stream>, malformed: nat)
    ensures (streams, malformed) == Parsed(lines)
  {
    streams, malformed := Empty(), 0;
    var i := 0;
    while i < |lines|
      invariant 0 <= i <= |lines| && (streams, malformed) == Parsed(lines[..i])
    {
      assert lines[..i + 1][..i] == lines[..i];
      match lines[i] {
        case Noise =>
        case Malformed => malformed := malformed + 1;
        case Batch(epoch, dropped, rows) =>
          var stream := StreamOf(streams, epoch);
          stream := TakeRows(stream.(dropped := Max(stream.dropped, dropped)), rows);
          streams := streams.Put(epoch, stream);
      }
      i := i + 1;
    }
    assert lines[..i] == lines;
  }

  method TakeRows(s: Stream, rows: seq<Row>) returns (stream: Stream)
    ensures stream == AddRows(s, rows)
  {
    hide AddRow;
    stream := s;
    var i := 0;
    while i < |rows|
      invariant 0 <= i <= |rows| && stream == AddRows(s, rows[..i])
    {
      assert rows[..i + 1][..i] == rows[..i];
      stream := AddRow(stream, rows[i]);
      i := i + 1;
    }
    assert rows[..i] == rows;
  }

  // ----- the summary of one stream -----

  datatype Gap = Gap(
    unixMicros: int, gapMicros: int, beforeIndex: nat, afterIndex: nat, sourceChanged: bool,
    includesSilence: bool, timing: Option<seq<nat>>)

  datatype Stats = Stats(
    missing: int, reversals: nat, sequenceJumps: nat, timestampJumps: nat, maxGap: int, gaps: seq<Gap>)

  datatype Summary = Summary(
    epoch: int, records: nat, dropped: nat, conflicts: nat, stats: Stats, first: Option<int>, last: Option<int>)

  predicate SameTimeline(a: Row, b: Row) {
    a.transport == b.transport && a.ssrc == b.ssrc
  }

  predicate SequenceJump(a: Row, b: Row) {
    SameTimeline(a, b) && b.sequence != (a.sequence + 1) % SEQUENCE_MODULUS
  }

  predicate TimestampJump(a: Row, b: Row) {
    SameTimeline(a, b) && b.timestamp != (a.timestamp + FRAME_SAMPLES) % TIMESTAMP_MODULUS
  }

  function One(b: bool): nat {
    if b then 1 else 0
  }

  function GapOf(epoch: int, a: Row, b: Row): Gap {
    Gap(epoch + b.at, b.at - a.at, a.index, b.index, a.source != b.source, a.silence || b.silence, b.timing)
  }

  /** Rows whose indices are not neighbours only add to what is missing. */
  function AddPair(s: Stats, epoch: int, a: Row, b: Row): Stats {
    var next := s.(missing := s.missing + b.index - a.index - 1);
    if b.index != a.index + 1 then next
    else
      var reversed := next.(reversals := next.reversals + One(b.at < a.at));
      if !SameTimeline(a, b) then reversed
      else
        var gap := b.at - a.at;
        reversed.(
          sequenceJumps := reversed.sequenceJumps + One(SequenceJump(a, b)),
          timestampJumps := reversed.timestampJumps + One(TimestampJump(a, b)),
          maxGap := Max(reversed.maxGap, gap),
          gaps := reversed.gaps + if gap >= GAP_MICROS then [GapOf(epoch, a, b)] else [])
  }

  function PairStats(epoch: int, rows: seq<Row>): Stats {
    if |rows| <= 1 then Stats(if rows == [] then 0 else rows[0].index - 1, 0, 0, 0, 0, [])
    else AddPair(PairStats(epoch, rows[..|rows| - 1]), epoch, rows[|rows| - 2], rows[|rows| - 1])
  }

  function Summarized(epoch: int, rows: seq<Row>, dropped: nat, conflicts: nat): Summary {
    Summary(epoch, |rows|, dropped, conflicts, PairStats(epoch, rows),
            if rows == [] then None else Some(epoch + rows[0].at),
            if rows == [] then None else Some(epoch + rows[|rows| - 1].at))
  }

  /** `keys` are the keys of `d`, each once, in ascending order. */
  ghost predicate Sorts<V>(keys: seq<int>, d: Dict<int, V>) {
    Ascends(keys)
    && (forall n :: d.Has(n) ==> n in keys)
    && (forall i :: 0 <= i < |keys| ==> d.Has(keys[i]))
  }

  /** `rows` are the records in index order. */
  ghost predicate InOrder(rows: seq<Row>, records: Dict<int, Row>) {
    exists keys: seq<int> :: OrderedBy(rows, records, keys)
  }

  ghost predicate OrderedBy(rows: seq<Row>, records: Dict<int, Row>, keys: seq<int>) {
    Sorts(keys, records) && |rows| == |keys|
    && forall i :: 0 <= i < |rows| ==> rows[i] == records.Get(keys[i])
  }

  ghost predicate IsSummary(summary: Summary, epoch: int, s: Stream) {
    exists rows: seq<Row> :: InOrder(rows, s.records) && summary == Summarized(epoch, rows, s.dropped, s.conflicts)
  }

  ghost predicate DescribesEach(output: seq<Summary>, streams: Dict<int, Stream>, epochs: seq<int>) {
    Sorts(epochs, streams) && |output| == |epochs|
    && forall i :: 0 <= i < |output| ==> IsSummary(output[i], epochs[i], streams.Get(epochs[i]))
  }

  /** One summary for each stream, in epoch order. */
  ghost predicate Describes(output: seq<Summary>, streams: Dict<int, Stream>) {
    exists epochs: seq<int> :: DescribesEach(output, streams, epochs)
  }

  method SortedKeys<V>(d: Dict<int, V>) returns (keys: seq<int>)
    requires d.Valid()
    ensures Sorts(keys, d)
  {
    keys := Sorted(d.keys);
    forall n | d.Has(n) ensures n in keys {
      var k :| 0 <= k < |d.keys| && d.keys[k] == n;
    }
    forall i | 0 <= i < |keys| ensures d.Has(keys[i]) {
      assert keys[i] in d.keys;
    }
  }

  method RowsInOrder(records: Dict<int, Row>) returns (rows: seq<Row>)
    requires records.Valid()
    ensures InOrder(rows, records)
  {
    var keys := SortedKeys(records);
    rows := seq(|keys|, i requires 0 <= i < |keys| => records.Get(keys[i]));
    assert OrderedBy(rows, records, keys);
  }

  method Summarize(lines: seq<Line>) returns (output: seq<Summary>, malformed: nat)
    ensures Describes(output, Parsed(lines).0) && malformed == Parsed(lines).1
  {
    hide Parsed, IsSummary;
    var streams, bad := ParseTraces(lines);
    malformed := bad;
    var epochs := SortedKeys(streams);
    output := [];
    var i := 0;
    while i < |epochs|
      invariant 0 <= i <= |epochs| && |output| == i
      invariant forall k :: 0 <= k < i ==> IsSummary(output[k], epochs[k], streams.Get(epochs[k]))
    {
      var summary := SummarizeStream(epochs[i], streams.Get(epochs[i]));
      output := output + [summary];
      i := i + 1;
    }
    assert DescribesEach(output, streams, epochs);
  }

  method SummarizeStream(epoch: int, stream: Stream) returns (summary: Summary)
    requires stream.records.Valid()
    ensures IsSummary(summary, epoch, stream)
  {
    hide InOrder, PairStats;
    var rows := RowsInOrder(stream.records);
    var stats := SummarizePairs(epoch, rows);
    summary := Summary(epoch, |rows|, stream.dropped, stream.conflicts, stats,
                       if rows == [] then None else Some(epoch + rows[0].at),
                       if rows == [] then None else Some(epoch + rows[|rows| - 1].at));
    assert summary == Summarized(epoch, rows, stream.dropped, stream.conflicts);
  }

  method SummarizePairs(epoch: int, rows: seq<Row>) returns (stats: Stats)
    ensures stats == PairStats(epoch, rows)
  {
    hide AddPair;
    stats := Stats(if rows == [] then 0 else rows[0].index - 1, 0, 0, 0, 0, []);
    if rows == [] {
      return;
    }
    var i := 1;
    while i < |rows|
      invariant 1 <= i <= |rows| && stats == PairStats(epoch, rows[..i])
    {
      assert rows[..i + 1][..i] == rows[..i];
      stats := AddPair(stats, epoch, rows[i - 1], rows[i]);
      i := i + 1;
    }
    assert rows[..i] == rows;
  }
}
