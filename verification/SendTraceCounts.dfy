/** What the counters of the sender trace summary count, one logged record or batch at a time. */
module SendTraceCounts {
  import opened Options
  import opened OrderedMap
  import opened Sorting
  import opened SendTrace
  import SendTraceLaws

  // ----- malformed batches -----

  ghost function MalformedAt(lines: seq<Line>): set<int> {
    set i | 0 <= i < |lines| && lines[i].Malformed?
  }

  /** Every malformed batch is counted once, and nothing else is. */
  lemma {:induction false} MalformedExactly(lines: seq<Line>)
    ensures Parsed(lines).1 == |MalformedAt(lines)|
  {
    if lines == [] {
      assert MalformedAt(lines) == {};
    } else {
      var n := |lines| - 1;
      MalformedExactly(lines[..n]);
      assert MalformedAt(lines) == MalformedAt(lines[..n]) + if lines[n].Malformed? then {n} else {};
    }
  }

  // ----- conflicts -----

  ghost predicate IsLatest(rows: seq<Row>, i: int, n: int) {
    0 <= i < n <= |rows| && forall k :: i < k < n ==> rows[k].index != rows[i].index
  }

  /** Row i differs from the row it takes the place of. */
  ghost predicate Overwrites(rows: seq<Row>, i: int) {
    0 <= i < |rows|
    && exists j :: IsLatest(rows, j, i) && rows[j].index == rows[i].index && rows[j] != rows[i]
  }

  ghost function OverwritesAt(rows: seq<Row>): set<int> {
    set i | 0 <= i < |rows| && Overwrites(rows, i)
  }

  ghost predicate HoldsLatest(s: Stream, rows: seq<Row>) {
    (forall i :: 0 <= i < |rows| && IsLatest(rows, i, |rows|)
       ==> s.records.Has(rows[i].index) && s.records.Get(rows[i].index) == rows[i])
    && forall n :: s.records.Has(n) ==> exists i :: 0 <= i < |rows| && IsLatest(rows, i, |rows|) && rows[i].index == n
  }

  /** The record kept for an index is the last one logged for it. */
  lemma {:induction false} LatestRecordIsKept(rows: seq<Row>)
    ensures HoldsLatest(AddRows(NoStream(), rows), rows)
  {
    hide AddRow, HoldsLatest;
    if rows == [] {
      NothingHeld(rows);
    } else {
      var n := |rows| - 1;
      LatestRecordIsKept(rows[..n]);
      LatestStep(AddRows(NoStream(), rows[..n]), rows);
    }
  }

  lemma NothingHeld(rows: seq<Row>)
    requires rows == []
    ensures HoldsLatest(AddRows(NoStream(), rows), rows) && AddRows(NoStream(), rows).conflicts == 0
  {}

  lemma LatestGrows(rows: seq<Row>, i: int)
    requires rows != []
    ensures var n := |rows| - 1;
            IsLatest(rows, i, |rows|)
            <==> i == n || (IsLatest(rows[..n], i, n) && rows[i].index != rows[n].index)
  {
    var n := |rows| - 1;
    if 0 <= i < n {
      assert rows[..n][i] == rows[i];
      if IsLatest(rows, i, |rows|) {
        assert forall k :: i < k < n ==> rows[..n][k] == rows[k];
      } else if IsLatest(rows[..n], i, n) && rows[i].index != rows[n].index {
        forall k | i < k < |rows| ensures rows[k].index != rows[i].index {
          assert k < n ==> rows[..n][k] == rows[k];
        }
      }
    }
  }

  lemma LatestStep(s: Stream, rows: seq<Row>)
    requires rows != [] && HoldsLatest(s, rows[..|rows| - 1])
    ensures HoldsLatest(AddRow(s, rows[|rows| - 1]), rows)
  {
    hide IsLatest;
    var n := |rows| - 1;
    forall i | 0 <= i < |rows|
      ensures IsLatest(rows, i, |rows|)
              <==> i == n || (IsLatest(rows[..n], i, n) && rows[i].index != rows[n].index)
    {
      LatestGrows(rows, i);
    }
    var t := AddRow(s, rows[n]);
    forall m | t.records.Has(m) ensures exists i :: 0 <= i < |rows| && IsLatest(rows, i, |rows|) && rows[i].index == m {
      if m == rows[n].index {
        assert IsLatest(rows, n, |rows|);
      } else {
        assert s.records.Has(m);
        var i :| 0 <= i < n && IsLatest(rows[..n], i, n) && rows[..n][i].index == m;
        assert IsLatest(rows, i, |rows|);
      }
    }
  }

  lemma OverwritesStep(s: Stream, rows: seq<Row>)
    requires rows != [] && HoldsLatest(s, rows[..|rows| - 1])
    ensures var row := rows[|rows| - 1];
            Overwrites(rows, |rows| - 1) <==> s.records.Has(row.index) && s.records.Get(row.index) != row
  {
    var n := |rows| - 1;
    forall i ensures IsLatest(rows, i, n) <==> IsLatest(rows[..n], i, n) {
      assert forall k :: 0 <= k < n ==> rows[..n][k] == rows[k];
    }
  }

  lemma OverwritesBefore(rows: seq<Row>, n: int, i: int)
    requires 0 <= i < n <= |rows|
    ensures Overwrites(rows, i) <==> Overwrites(rows[..n], i)
  {
    forall j ensures IsLatest(rows, j, i) <==> IsLatest(rows[..n], j, i) {
      assert forall k :: 0 <= k < i ==> rows[..n][k] == rows[k];
    }
  }

  /** A conflict is counted for every record that differs from the one it takes the place of. */
  lemma {:induction false} ConflictsAreOverwrites(rows: seq<Row>)
    ensures AddRows(NoStream(), rows).conflicts == |OverwritesAt(rows)|
  {
    hide HoldsLatest, Overwrites;
    if rows == [] {
      NothingHeld(rows);
      assert OverwritesAt(rows) == {};
    } else {
      var n := |rows| - 1;
      ConflictsAreOverwrites(rows[..n]);
      LatestRecordIsKept(rows[..n]);
      OverwritesStep(AddRows(NoStream(), rows[..n]), rows);
      forall i | 0 <= i < n ensures Overwrites(rows, i) <==> Overwrites(rows[..n], i) {
        OverwritesBefore(rows, n, i);
      }
      assert OverwritesAt(rows) == OverwritesAt(rows[..n]) + if Overwrites(rows, n) then {n} else {};
    }
  }

  // ----- jumps and reversals -----

  /** Row i follows the record of the packet before it. */
  ghost predicate Successor(rows: seq<Row>, k: int, i: int) {
    0 <= k < |rows| && 0 <= i < |rows| && rows[i].index == rows[k].index + 1
  }

  datatype Disagreement = SequenceOff | TimestampOff | ClockBack

  /** Sequence numbers advance by one and timestamps by 960 on one transport and SSRC, modulo 2^16 and
      2^32; clocks never go back. */
  ghost predicate Disagree(d: Disagreement, a: Row, b: Row) {
    match d
    case SequenceOff => a.transport == b.transport && a.ssrc == b.ssrc && b.sequence != (a.sequence + 1) % 65_536
    case TimestampOff =>
      a.transport == b.transport && a.ssrc == b.ssrc && b.timestamp != (a.timestamp + 960) % 4_294_967_296
    case ClockBack => b.at < a.at
  }

  ghost function DisagreeAt(d: Disagreement, rows: seq<Row>): set<int> {
    set k, i | 0 <= k < |rows| && 0 <= i < |rows| && Successor(rows, k, i) && Disagree(d, rows[k], rows[i]) :: i
  }

  ghost function CountOf(d: Disagreement, s: Stats): nat {
    match d
    case SequenceOff => s.sequenceJumps
    case TimestampOff => s.timestampJumps
    case ClockBack => s.reversals
  }

  lemma PairCounts(d: Disagreement, s: Stats, epoch: int, a: Row, b: Row)
    ensures CountOf(d, AddPair(s, epoch, a, b))
            == CountOf(d, s) + One(b.index == a.index + 1 && Disagree(d, a, b))
  {}

  lemma SuccessorStep(rows: seq<Row>, k: int, i: int)
    requires SendTraceLaws.Rising(rows) && |rows| > 1
    ensures var n := |rows| - 1;
            Successor(rows, k, i)
            <==> Successor(rows[..n], k, i) || (k == n - 1 && i == n && rows[n].index == rows[n - 1].index + 1)
  {
    var n := |rows| - 1;
    if Successor(rows, k, i) {
      if i == n {
        if k < n - 1 {
          assert false;
        }
      } else if k == n {
        assert false;
      } else {
        assert rows[..n][k] == rows[k] && rows[..n][i] == rows[i];
      }
    }
  }

  /** Each counter of jumps and reversals is the number of records that disagree with that of the packet
      before. */
  lemma {:induction false} DisagreementsAreCounted(d: Disagreement, epoch: int, rows: seq<Row>)
    requires SendTraceLaws.Rising(rows)
    ensures CountOf(d, PairStats(epoch, rows)) == |DisagreeAt(d, rows)|
  {
    hide AddPair, Disagree;
    if |rows| <= 1 {
      assert DisagreeAt(d, rows) == {};
    } else {
      hide Successor;
      var n := |rows| - 1;
      DisagreementsAreCounted(d, epoch, rows[..n]);
      PairCounts(d, PairStats(epoch, rows[..n]), epoch, rows[n - 1], rows[n]);
      DisagreeStep(d, rows);
    }
  }

  lemma DisagreeStep(d: Disagreement, rows: seq<Row>)
    requires SendTraceLaws.Rising(rows) && |rows| > 1
    ensures var n := |rows| - 1;
            DisagreeAt(d, rows)
            == DisagreeAt(d, rows[..n])
               + (if rows[n].index == rows[n - 1].index + 1 && Disagree(d, rows[n - 1], rows[n]) then {n} else {})
    ensures |rows| - 1 !in DisagreeAt(d, rows[..|rows| - 1])
  {
    hide SendTraceLaws.Rising, Disagree;
    var n := |rows| - 1;
    forall k, i ensures Successor(rows, k, i)
                        <==> Successor(rows[..n], k, i)
                             || (k == n - 1 && i == n && rows[n].index == rows[n - 1].index + 1)
    {
      SuccessorStep(rows, k, i);
    }
  }

  // ----- the span of a stream -----

  ghost predicate IsLowest(s: Stream, row: Row) {
    s.records.Has(row.index) && s.records.Get(row.index) == row && forall n :: s.records.Has(n) ==> row.index <= n
  }

  ghost predicate IsHighest(s: Stream, row: Row) {
    s.records.Has(row.index) && s.records.Get(row.index) == row && forall n :: s.records.Has(n) ==> n <= row.index
  }

  /** A summary spans from the time of the record with the lowest index to that of the record with the highest;
      a stream without records has neither. */
  lemma SpanExactly(lines: seq<Line>, epoch: int, summary: Summary)
    requires IsSummary(summary, epoch, StreamOf(Parsed(lines).0, epoch))
    ensures var s := StreamOf(Parsed(lines).0, epoch);
            (forall row :: IsLowest(s, row) ==> summary.first == Some(epoch + row.at))
            && (forall row :: IsHighest(s, row) ==> summary.last == Some(epoch + row.at))
            && (summary.first == None <==> SendTraceLaws.RowsOf(lines, epoch) == [])
            && (summary.last == None <==> SendTraceLaws.RowsOf(lines, epoch) == [])
  {
    hide Parsed, AddRows, InOrder, PairStats, SendTraceLaws.RowsOf;
    var logged := SendTraceLaws.RowsOf(lines, epoch);
    var s := StreamOf(Parsed(lines).0, epoch);
    SendTraceLaws.StreamIsItsRecords(lines, epoch);
    SendTraceLaws.RecordsAreTheRows(logged);
    var rows: seq<Row> :| InOrder(rows, s.records) && summary == Summarized(epoch, rows, s.dropped, s.conflicts);
    SendTraceLaws.OrderedRowsRise(rows, s);
    LowestAndHighest(rows, s);
    SomeRecord(rows, s, logged);
  }

  lemma LowestAndHighest(rows: seq<Row>, s: Stream)
    requires SendTraceLaws.Rising(rows)
    requires forall i :: 0 <= i < |rows| ==> s.records.Has(rows[i].index) && s.records.Get(rows[i].index) == rows[i]
    requires forall n :: s.records.Has(n) ==> s.records.Get(n) in rows
    ensures forall row :: IsLowest(s, row) ==> rows != [] && rows[0] == row
    ensures forall row :: IsHighest(s, row) ==> rows != [] && rows[|rows| - 1] == row
  {
    forall row | IsLowest(s, row) ensures rows != [] && rows[0] == row {
      assert row in rows;
    }
    forall row | IsHighest(s, row) ensures rows != [] && rows[|rows| - 1] == row {
      assert row in rows;
    }
  }

  lemma SomeRecord(rows: seq<Row>, s: Stream, logged: seq<Row>)
    requires SendTraceLaws.Records(s, logged)
    requires forall i :: 0 <= i < |rows| ==> s.records.Has(rows[i].index) && s.records.Get(rows[i].index) == rows[i]
    requires forall n :: s.records.Has(n) ==> s.records.Get(n) in rows
    ensures rows == [] <==> logged == []
  {
    if logged != [] {
      assert s.records.Get(logged[0].index) in rows;
    }
    if rows != [] {
      assert s.records.Get(rows[0].index) in logged;
    }
  }
}
