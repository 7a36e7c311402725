/** What the sender trace summary depends on, and what its counts mean. */
module SendTraceLaws {
  import opened OrderedMap
  import opened Sorting
  import opened SendTrace

  // ----- the records a log holds -----

  /** Every record logged for an epoch, in log order. */
  function RowsOf(lines: seq<Line>, epoch: int): seq<Row> {
    if lines == [] then []
    else
      var last := lines[|lines| - 1];
      RowsOf(lines[..|lines| - 1], epoch) + if last.Batch? && last.epoch == epoch then last.rows else []
  }

  function DroppedOf(lines: seq<Line>, epoch: int): nat {
    if lines == [] then 0
    else
      var last := lines[|lines| - 1];
      var before := DroppedOf(lines[..|lines| - 1], epoch);
      if last.Batch? && last.epoch == epoch then Max(before, last.dropped) else before
  }

  predicate Seen(lines: seq<Line>, epoch: int) {
    exists i :: 0 <= i < |lines| && lines[i].Batch? && lines[i].epoch == epoch
  }

  /** No index carries two different records. */
  ghost predicate Consistent(rows: seq<Row>) {
    forall i, j :: 0 <= i < j < |rows| && rows[i].index == rows[j].index ==> rows[i] == rows[j]
  }

  lemma {:induction false} AddRowsTwice(s: Stream, a: seq<Row>, b: seq<Row>)
    ensures AddRows(AddRows(s, a), b) == AddRows(s, a + b)
  {
    hide AddRow;
    if b == [] {
      assert a + b == a;
    } else {
      AddRowsTwice(s, a, b[..|b| - 1]);
      assert (a + b)[..|a + b| - 1] == a + b[..|b| - 1];
    }
  }

  lemma {:induction false} AddRowsIgnoresDropped(s: Stream, dropped: nat, rows: seq<Row>)
    ensures AddRows(s.(dropped := dropped), rows) == AddRows(s, rows).(dropped := dropped)
  {
    if rows != [] {
      AddRowsIgnoresDropped(s, dropped, rows[..|rows| - 1]);
    }
  }

  /** The stream of an epoch is made of its records alone. */
  lemma {:induction false} StreamIsItsRecords(lines: seq<Line>, epoch: int)
    ensures Parsed(lines).0.Has(epoch) <==> Seen(lines, epoch)
    ensures StreamOf(Parsed(lines).0, epoch)
            == AddRows(NoStream(), RowsOf(lines, epoch)).(dropped := DroppedOf(lines, epoch))
  {
    hide AddRows, Seen;
    if lines == [] {
      NothingLogged(epoch);
    } else {
      var n := |lines| - 1;
      StreamIsItsRecords(lines[..n], epoch);
      SeenStep(lines, epoch);
      if lines[n].Batch? && lines[n].epoch == epoch {
        var rows := RowsOf(lines[..n], epoch);
        AddRowsIgnoresDropped(AddRows(NoStream(), rows), DroppedOf(lines, epoch), lines[n].rows);
        AddRowsTwice(NoStream(), rows, lines[n].rows);
      } else {
        assert RowsOf(lines, epoch) == RowsOf(lines[..n], epoch);
      }
    }
  }

  lemma NothingLogged(epoch: int)
    ensures !Seen([], epoch) && AddRows(NoStream(), []) == NoStream()
  {}

  lemma SeenStep(lines: seq<Line>, epoch: int)
    requires lines != []
    ensures var last := lines[|lines| - 1];
            Seen(lines, epoch)
            <==> Seen(lines[..|lines| - 1], epoch) || (last.Batch? && last.epoch == epoch)
  {
    var n := |lines| - 1;
    if Seen(lines, epoch) {
      var i :| 0 <= i < |lines| && lines[i].Batch? && lines[i].epoch == epoch;
      assert i < n ==> lines[..n][i] == lines[i];
    }
    if Seen(lines[..n], epoch) {
      var i :| 0 <= i < n && lines[..n][i].Batch? && lines[..n][i].epoch == epoch;
      assert lines[i] == lines[..n][i];
    }
  }

  /** One record for each logged index and, if no conflict was counted, every logged record. */
  ghost predicate Records(s: Stream, rows: seq<Row>) {
    (forall i :: 0 <= i < |rows| ==> s.records.Has(rows[i].index))
    && (forall n :: s.records.Has(n) ==> s.records.Get(n) in rows && s.records.Get(n).index == n)
    && (s.conflicts == 0 ==> forall i :: 0 <= i < |rows| ==> s.records.Get(rows[i].index) == rows[i])
  }

  lemma {:induction false} RecordsAreTheRows(rows: seq<Row>)
    ensures Records(AddRows(NoStream(), rows), rows)
  {
    hide AddRow;
    if rows == [] {
      assert AddRows(NoStream(), rows) == NoStream();
    } else {
      var n := |rows| - 1;
      RecordsAreTheRows(rows[..n]);
      AddRowKeepsRecords(AddRows(NoStream(), rows[..n]), rows[..n], rows[n]);
      assert rows[..n] + [rows[n]] == rows;
    }
  }

  lemma AddRowKeepsRecords(s: Stream, rows: seq<Row>, row: Row)
    requires Records(s, rows)
    ensures Records(AddRow(s, row), rows + [row])
  {}

  /** Conflicts are counted exactly when some index carries two different records. */
  lemma {:induction false} ConflictsExactly(rows: seq<Row>)
    ensures AddRows(NoStream(), rows).conflicts == 0 <==> Consistent(rows)
  {
    hide AddRow, Consistent, Dict.Has, Dict.Get;
    if rows == [] {
      assert AddRows(NoStream(), rows) == NoStream();
      NothingInconsistent(rows);
    } else {
      var n := |rows| - 1;
      var before := rows[..n];
      ConflictsExactly(before);
      RecordsAreTheRows(before);
      assert before + [rows[n]] == rows;
      var s := AddRows(NoStream(), before);
      if s.conflicts == 0 {
        ConsistentStep(before, rows[n], s);
      } else {
        ConflictsStay(s, rows[n]);
        InconsistentStays(before, rows[n]);
      }
    }
  }

  lemma NothingInconsistent(rows: seq<Row>)
    requires rows == []
    ensures Consistent(rows)
  {}

  lemma ConflictsStay(s: Stream, row: Row)
    ensures AddRow(s, row).conflicts >= s.conflicts
  {}

  lemma InconsistentStays(before: seq<Row>, last: Row)
    requires !Consistent(before)
    ensures !Consistent(before + [last])
  {
    var i, j :| 0 <= i < j < |before| && before[i].index == before[j].index && before[i] != before[j];
    var rows := before + [last];
    assert rows[i].index == rows[j].index && rows[i] != rows[j];
  }

  lemma ConsistentStep(before: seq<Row>, last: Row, s: Stream)
    requires Consistent(before) && s.conflicts == 0
    requires forall i :: 0 <= i < |before| ==>
               s.records.Has(before[i].index) && s.records.Get(before[i].index) == before[i]
    requires forall n :: s.records.Has(n) ==> s.records.Get(n) in before && s.records.Get(n).index == n
    ensures AddRow(s, last).conflicts == 0 <==> Consistent(before + [last])
  {
    var rows := before + [last];
    if s.records.Has(last.index) {
      var i :| 0 <= i < |before| && before[i] == s.records.Get(last.index);
      assert rows[i].index == rows[|before|].index;
    }
  }

  // ----- the summary is a function of the records -----

  /** The same records for the same epochs, and the same largest drop counts. */
  ghost predicate SameRecords(a: seq<Line>, b: seq<Line>) {
    (forall e: int :: Seen(a, e) <==> Seen(b, e))
    && (forall e: int, row :: row in RowsOf(a, e) <==> row in RowsOf(b, e))
    && (forall e: int :: DroppedOf(a, e) == DroppedOf(b, e))
  }

  ghost predicate NoConflicts(lines: seq<Line>) {
    forall e: int :: Consistent(RowsOf(lines, e))
  }

  ghost predicate SameStream(s: Stream, t: Stream) {
    (forall n :: s.records.Has(n) <==> t.records.Has(n))
    && (forall n :: s.records.Has(n) ==> s.records.Get(n) == t.records.Get(n))
    && s.dropped == t.dropped && s.conflicts == t.conflicts
  }

  lemma SameRowsSameStream(a: seq<Row>, b: seq<Row>)
    requires Consistent(a) && Consistent(b) && forall row :: row in a <==> row in b
    ensures SameStream(AddRows(NoStream(), a), AddRows(NoStream(), b).(dropped := AddRows(NoStream(), a).dropped))
  {
    hide AddRows;
    ConflictsExactly(a);
    ConflictsExactly(b);
    RecordsAreTheRows(a);
    RecordsAreTheRows(b);
    var s, t := AddRows(NoStream(), a), AddRows(NoStream(), b);
    forall n | s.records.Has(n) ensures t.records.Has(n) && s.records.Get(n) == t.records.Get(n) {
      var i :| 0 <= i < |b| && b[i] == s.records.Get(n);
    }
    forall n | t.records.Has(n) ensures s.records.Has(n) {
      var i :| 0 <= i < |a| && a[i] == t.records.Get(n);
    }
  }

  lemma SameStreams(a: seq<Line>, b: seq<Line>, epoch: int)
    requires SameRecords(a, b) && NoConflicts(a) && NoConflicts(b)
    ensures Parsed(a).0.Has(epoch) <==> Parsed(b).0.Has(epoch)
    ensures SameStream(StreamOf(Parsed(a).0, epoch), StreamOf(Parsed(b).0, epoch))
  {
    hide Parsed, AddRows, Seen, Consistent, RowsOf, DroppedOf;
    StreamIsItsRecords(a, epoch);
    StreamIsItsRecords(b, epoch);
    SameRowsSameStream(RowsOf(a, epoch), RowsOf(b, epoch));
  }

  lemma SameSummary(x: Summary, y: Summary, epoch: int, s: Stream, t: Stream)
    requires IsSummary(x, epoch, s) && IsSummary(y, epoch, t) && SameStream(s, t)
    ensures x == y
  {
    hide Summarized;
    var a: seq<Row> :| InOrder(a, s.records) && x == Summarized(epoch, a, s.dropped, s.conflicts);
    var b: seq<Row> :| InOrder(b, t.records) && y == Summarized(epoch, b, t.dropped, t.conflicts);
    var ka: seq<int> :| OrderedBy(a, s.records, ka);
    var kb: seq<int> :| OrderedBy(b, t.records, kb);
    SameKeys(ka, kb, s.records, t.records);
    assert a == b;
  }

  lemma SameKeys<V>(ka: seq<int>, kb: seq<int>, a: Dict<int, V>, b: Dict<int, V>)
    requires Sorts(ka, a) && Sorts(kb, b) && forall n :: a.Has(n) <==> b.Has(n)
    ensures ka == kb
  {
    ListingsAgree(ka, kb);
  }

  /** Logs with the same lines, in any order and with any repetitions, hold the same records. */
  lemma SameLinesSameRecords(a: seq<Line>, b: seq<Line>)
    requires NoConflicts(a) && forall line :: line in a <==> line in b
    ensures SameRecords(a, b) && NoConflicts(b)
  {
    hide RowsOf, DroppedOf, Consistent;
    forall e: int ensures Seen(a, e) <==> Seen(b, e) {
      SeenInBoth(a, b, e);
      SeenInBoth(b, a, e);
    }
    forall e: int, row ensures row in RowsOf(a, e) <==> row in RowsOf(b, e) {
      RowsOfLines(a, e, row);
      RowsOfLines(b, e, row);
    }
    forall e: int ensures DroppedOf(a, e) == DroppedOf(b, e) {
      DroppedInBoth(a, b, e);
      DroppedInBoth(b, a, e);
    }
    forall e: int ensures Consistent(RowsOf(b, e)) {
      ConsistentRows(RowsOf(a, e), RowsOf(b, e));
    }
  }

  lemma ConsistentRows(a: seq<Row>, b: seq<Row>)
    requires Consistent(a) && forall row :: row in a <==> row in b
    ensures Consistent(b)
  {
    forall i, j | 0 <= i < j < |b| && b[i].index == b[j].index ensures b[i] == b[j] {
      assert b[i] in a && b[j] in a;
      var k :| 0 <= k < |a| && a[k] == b[i];
      var l :| 0 <= l < |a| && a[l] == b[j];
    }
  }

  lemma SeenInBoth(a: seq<Line>, b: seq<Line>, epoch: int)
    requires forall line :: line in a ==> line in b
    ensures Seen(a, epoch) ==> Seen(b, epoch)
  {
    if Seen(a, epoch) {
      var i :| 0 <= i < |a| && a[i].Batch? && a[i].epoch == epoch;
      assert a[i] in b;
      var j :| 0 <= j < |b| && b[j] == a[i];
    }
  }

  ghost predicate LoggedIn(line: Line, epoch: int, row: Row) {
    line.Batch? && line.epoch == epoch && row in line.rows
  }

  lemma {:induction false} RowsOfLines(lines: seq<Line>, epoch: int, row: Row)
    ensures row in RowsOf(lines, epoch) <==> exists line :: line in lines && LoggedIn(line, epoch, row)
  {
    if lines != [] {
      var n := |lines| - 1;
      RowsOfLines(lines[..n], epoch, row);
      if row in RowsOf(lines[..n], epoch) {
        var line :| line in lines[..n] && LoggedIn(line, epoch, row);
        assert line in lines;
      } else if row in RowsOf(lines, epoch) {
        assert lines[n] in lines && LoggedIn(lines[n], epoch, row);
      } else {
        forall line | line in lines ensures !LoggedIn(line, epoch, row) {
          assert line in lines[..n] || line == lines[n];
        }
      }
    }
  }

  lemma {:induction false} DroppedInBoth(a: seq<Line>, b: seq<Line>, epoch: int)
    requires forall line :: line in a ==> line in b
    ensures DroppedOf(a, epoch) <= DroppedOf(b, epoch)
  {
    if a != [] {
      var n := |a| - 1;
      forall line | line in a[..n] ensures line in b {
        assert line in a;
      }
      DroppedInBoth(a[..n], b, epoch);
      assert a[n] in a;
      if a[n].Batch? && a[n].epoch == epoch {
        DroppedIsLargest(b, a[n]);
      }
    }
  }

  lemma {:induction false} DroppedIsLargest(lines: seq<Line>, line: Line)
    requires line in lines && line.Batch?
    ensures line.dropped <= DroppedOf(lines, line.epoch)
  {
    var n := |lines| - 1;
    if line != lines[n] {
      assert line in lines[..n];
      DroppedIsLargest(lines[..n], line);
    }
  }

  /** So long as no index carries two different records, any reordering or repetition of the batches
      gives the same summary of every stream. */
  lemma SummaryDependsOnTheRecords(a: seq<Line>, b: seq<Line>, x: seq<Summary>, y: seq<Summary>)
    requires SameRecords(a, b) && NoConflicts(a) && NoConflicts(b)
    requires Describes(x, Parsed(a).0) && Describes(y, Parsed(b).0)
    ensures x == y
  {
    hide Parsed, SameRecords, NoConflicts, IsSummary, SameStream;
    var ea: seq<int> :| DescribesEach(x, Parsed(a).0, ea);
    var eb: seq<int> :| DescribesEach(y, Parsed(b).0, eb);
    forall e: int ensures Parsed(a).0.Has(e) <==> Parsed(b).0.Has(e) {
      SameStreams(a, b, e);
    }
    SameKeys(ea, eb, Parsed(a).0, Parsed(b).0);
    forall i | 0 <= i < |x| ensures x[i] == y[i] {
      SameStreams(a, b, ea[i]);
      SameSummary(x[i], y[i], ea[i], Parsed(a).0.Get(ea[i]), Parsed(b).0.Get(ea[i]));
    }
  }

  // ----- what the counts mean -----

  /** What is missing is every index up to the last one that has no record. */
  lemma {:induction false} MissingIsLastMinusCount(epoch: int, rows: seq<Row>)
    requires rows != []
    ensures PairStats(epoch, rows).missing == rows[|rows| - 1].index - |rows|
  {
    if |rows| > 1 {
      MissingIsLastMinusCount(epoch, rows[..|rows| - 1]);
    }
  }

  ghost predicate Rising(rows: seq<Row>) {
    forall i, j :: 0 <= i < j < |rows| ==> rows[i].index < rows[j].index
  }

  lemma OrderedRowsRise(rows: seq<Row>, s: Stream)
    requires InOrder(rows, s.records)
    requires forall n :: s.records.Has(n) ==> s.records.Get(n).index == n
    ensures Rising(rows)
    ensures forall i :: 0 <= i < |rows| ==> s.records.Has(rows[i].index) && s.records.Get(rows[i].index) == rows[i]
    ensures forall n :: s.records.Has(n) ==> s.records.Get(n) in rows
  {
    var keys: seq<int> :| OrderedBy(rows, s.records, keys);
    forall n | s.records.Has(n) ensures s.records.Get(n) in rows {
      assert n in keys;
      var k :| 0 <= k < |keys| && keys[k] == n;
      assert rows[k] == s.records.Get(n);
    }
  }

  /** Two records of neighbouring packets. */
  ghost predicate Neighbours(rows: seq<Row>, a: Row, b: Row) {
    a in rows && b in rows && b.index == a.index + 1
  }

  /** A jump is counted exactly when two records of neighbouring packets on one timeline disagree, and a
      clock reversal exactly when one of two neighbours precedes the other in time: missing records are
      never taken for either, wherever they are missing. */
  lemma {:induction false} JumpsExactly(epoch: int, rows: seq<Row>)
    requires Rising(rows)
    ensures PairStats(epoch, rows).sequenceJumps == 0
            <==> forall a, b :: Neighbours(rows, a, b) ==> !SequenceJump(a, b)
    ensures PairStats(epoch, rows).timestampJumps == 0
            <==> forall a, b :: Neighbours(rows, a, b) ==> !TimestampJump(a, b)
    ensures PairStats(epoch, rows).reversals == 0
            <==> forall a, b :: Neighbours(rows, a, b) ==> a.at <= b.at
  {
    hide SequenceJump, TimestampJump;
    if |rows| <= 1 {
      NoNeighbours(rows);
    } else {
      var n := |rows| - 1;
      JumpsExactly(epoch, rows[..n]);
      forall a, b ensures Neighbours(rows, a, b)
                          <==> Neighbours(rows[..n], a, b)
                               || (a == rows[n - 1] && b == rows[n] && b.index == a.index + 1)
      {
        NewNeighbours(rows, a, b);
      }
      LastPairJumps(PairStats(epoch, rows[..n]), epoch, rows[n - 1], rows[n]);
    }
  }

  lemma LastPairJumps(s: Stats, epoch: int, a: Row, b: Row)
    ensures AddPair(s, epoch, a, b).sequenceJumps
            == s.sequenceJumps + One(b.index == a.index + 1 && SequenceJump(a, b))
    ensures AddPair(s, epoch, a, b).timestampJumps
            == s.timestampJumps + One(b.index == a.index + 1 && TimestampJump(a, b))
    ensures AddPair(s, epoch, a, b).reversals == s.reversals + One(b.index == a.index + 1 && b.at < a.at)
  {}

  /** Two records of neighbouring packets on one timeline. */
  ghost predicate Adjoining(rows: seq<Row>, a: Row, b: Row) {
    Neighbours(rows, a, b) && SameTimeline(a, b)
  }

  ghost predicate LongGap(epoch: int, rows: seq<Row>, g: Gap) {
    exists a, b :: Adjoining(rows, a, b) && b.at - a.at >= GAP_MICROS && IsGap(g, epoch, a, b)
  }

  /** The gap ends with the later record, which also gives its timing. */
  ghost predicate IsGap(g: Gap, epoch: int, a: Row, b: Row) {
    g.unixMicros == epoch + b.at && b.at == a.at + g.gapMicros
    && g.beforeIndex == a.index && g.afterIndex == b.index
    && (g.sourceChanged <==> a.source != b.source) && (g.includesSilence <==> a.silence || b.silence)
    && g.timing == b.timing
  }

  lemma GapOfIsTheGap(g: Gap, epoch: int, a: Row, b: Row)
    ensures IsGap(g, epoch, a, b) <==> g == GapOf(epoch, a, b)
  {}

  lemma AdjoiningStep(rows: seq<Row>)
    requires Rising(rows) && |rows| > 1
    ensures var n := |rows| - 1;
            forall a, b :: Adjoining(rows, a, b)
              <==> Adjoining(rows[..n], a, b)
                   || (a == rows[n - 1] && b == rows[n] && b.index == a.index + 1 && SameTimeline(a, b))
  {
    hide Neighbours, SameTimeline;
    forall a, b ensures Neighbours(rows, a, b)
                        <==> Neighbours(rows[..|rows| - 1], a, b)
                             || (a == rows[|rows| - 2] && b == rows[|rows| - 1] && b.index == a.index + 1)
    {
      NewNeighbours(rows, a, b);
    }
  }

  /** The listed gaps are exactly those of at least 40 ms between neighbouring packets on one timeline. */
  lemma {:induction false} GapsExactly(epoch: int, rows: seq<Row>, g: Gap)
    requires Rising(rows)
    ensures g in PairStats(epoch, rows).gaps <==> LongGap(epoch, rows, g)
  {
    hide GapOf, IsGap, Adjoining, AddPair;
    if |rows| <= 1 {
      NothingAdjoins(rows);
    } else {
      var n := |rows| - 1;
      GapsExactly(epoch, rows[..n], g);
      GapOfIsTheGap(g, epoch, rows[n - 1], rows[n]);
      AdjoiningStep(rows);
      LastPairGap(PairStats(epoch, rows[..n]), epoch, rows[n - 1], rows[n]);
    }
  }

  /** The largest gap bounds every step between neighbouring packets on one timeline, and is one of
      them or zero. */
  lemma {:induction false} LargestGapExactly(epoch: int, rows: seq<Row>)
    requires Rising(rows)
    ensures var largest := PairStats(epoch, rows).maxGap;
            (forall a, b :: Adjoining(rows, a, b) ==> b.at - a.at <= largest)
            && (largest == 0 || exists a, b :: Adjoining(rows, a, b) && b.at - a.at == largest)
  {
    hide GapOf, Adjoining, AddPair;
    if |rows| <= 1 {
      NothingAdjoins(rows);
    } else {
      var n := |rows| - 1;
      LargestGapExactly(epoch, rows[..n]);
      AdjoiningStep(rows);
      LastPairGap(PairStats(epoch, rows[..n]), epoch, rows[n - 1], rows[n]);
    }
  }

  lemma NothingAdjoins(rows: seq<Row>)
    requires |rows| <= 1
    ensures forall a, b :: !Adjoining(rows, a, b)
  {}

  lemma LastPairGap(s: Stats, epoch: int, a: Row, b: Row)
    ensures var adjoin := b.index == a.index + 1 && SameTimeline(a, b);
            AddPair(s, epoch, a, b).maxGap == (if adjoin then Max(s.maxGap, b.at - a.at) else s.maxGap)
            && AddPair(s, epoch, a, b).gaps
               == s.gaps + if adjoin && b.at - a.at >= GAP_MICROS then [GapOf(epoch, a, b)] else []
  {}

  lemma NoNeighbours(rows: seq<Row>)
    requires |rows| <= 1
    ensures forall a, b :: !Neighbours(rows, a, b)
  {}

  lemma NewNeighbours(rows: seq<Row>, a: Row, b: Row)
    requires Rising(rows) && |rows| > 1
    ensures var n := |rows| - 1;
            Neighbours(rows, a, b)
            <==> Neighbours(rows[..n], a, b) || (a == rows[n - 1] && b == rows[n] && b.index == a.index + 1)
  {
    var n := |rows| - 1;
    if Neighbours(rows, a, b) {
      var i :| 0 <= i < |rows| && rows[i] == a;
      var j :| 0 <= j < |rows| && rows[j] == b;
      assert i < j && rows[n - 1].index < rows[n].index;
      if j < n {
        assert rows[..n][i] == a && rows[..n][j] == b;
      } else if i < n - 1 {
        assert false;
      }
    }
  }

  /** The sender numbers its packets modulo 2^16 and stamps them 960 samples apart modulo 2^32, on
      each of its timelines; section 5.1 of RFC 3550 lets both wrap around. */
  ghost predicate ContinuousSender(sent: seq<Row>) {
    forall a, b :: Neighbours(sent, a, b) && SameTimeline(a, b) ==>
      b.sequence == (a.sequence + 1) % SEQUENCE_MODULUS
      && b.timestamp == (a.timestamp + FRAME_SAMPLES) % TIMESTAMP_MODULUS
  }

  /** Whichever records of a continuous sender are lost, no jump is reported. */
  lemma LostRecordsAreNotJumps(sent: seq<Row>, epoch: int, rows: seq<Row>)
    requires ContinuousSender(sent) && Rising(rows) && forall row :: row in rows ==> row in sent
    ensures PairStats(epoch, rows).sequenceJumps == 0 && PairStats(epoch, rows).timestampJumps == 0
  {
    hide PairStats;
    JumpsExactly(epoch, rows);
    forall a, b | Neighbours(rows, a, b) ensures !SequenceJump(a, b) && !TimestampJump(a, b) {
      assert Neighbours(sent, a, b);
    }
  }

  /** From the log to the report: the stream of an epoch whose logged records are some of those that a
      continuous sender sent shows no jump. */
  lemma ContinuousLogShowsNoJump(lines: seq<Line>, epoch: int, sent: seq<Row>, summary: Summary)
    requires ContinuousSender(sent) && forall row :: row in RowsOf(lines, epoch) ==> row in sent
    requires IsSummary(summary, epoch, StreamOf(Parsed(lines).0, epoch))
    ensures summary.stats.sequenceJumps == 0 && summary.stats.timestampJumps == 0
  {
    hide Parsed, AddRows, InOrder, PairStats, ContinuousSender, RowsOf;
    var s := StreamOf(Parsed(lines).0, epoch);
    StreamIsItsRecords(lines, epoch);
    RecordsAreTheRows(RowsOf(lines, epoch));
    var rows: seq<Row> :| InOrder(rows, s.records) && summary == Summarized(epoch, rows, s.dropped, s.conflicts);
    OrderedRowsRise(rows, s);
    forall row | row in rows ensures row in sent {
      var i :| 0 <= i < |rows| && rows[i] == row;
      assert s.records.Get(rows[i].index) == row;
    }
    LostRecordsAreNotJumps(sent, epoch, rows);
  }
}
