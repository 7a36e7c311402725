/** The merge at the top of `benchmarks/summarize_receiver.py`: the archived rows of a run with the
    stored report of that run. */
module ReceiverSummary {
  import opened Options
  import opened BrowserReport
  import opened Collector
  import opened Sorting

  // ----- events -----

  function ArchivedEvents(rows: seq<EventRow>, run: Option<string>): map<int, Event> {
    if rows == [] then map[]
    else
      var row := rows[|rows| - 1];
      var before := ArchivedEvents(rows[..|rows| - 1], run);
      if row.run == run then before[row.sequence := row.event] else before
  }

  function WithReport(events: map<int, Event>, more: seq<Event>): map<int, Event> {
    if more == [] then events
    else
      var e := more[|more| - 1];
      var before := WithReport(events, more[..|more| - 1]);
      if e.sequence.Some? then before[e.sequence.value := e] else before
  }

  /** The numbers run from 1 to the largest of them. */
  ghost predicate Gapless(events: map<int, Event>) {
    forall n :: n in events ==> n >= 1 && forall m :: 1 <= m < n ==> m in events
  }

  /** The archived events of the report's run, overwritten by the report's own. */
  function MergeEvents(rows: seq<EventRow>, latest: Posted): map<int, Event> {
    WithReport(ArchivedEvents(rows, latest.run), latest.report.events)
  }

  /** The summary's verdict: none without an archive file, or when there is nothing merged. */
  ghost predicate HasVerdict(archive: Option<seq<EventRow>>, latest: Posted) {
    archive.Some? && exists n :: n in MergeEvents(archive.value, latest)
  }

  /** Without an archive file the report's own events stay as they are. With one, the merged events and
      their numbers in reporting order and, if there are any events, whether the persisted history is
      complete. */
  method SummarizeEvents(archive: Option<seq<EventRow>>, latest: Posted)
    returns (merged: Option<map<int, Event>>, sequence: seq<int>, complete: Option<bool>)
    ensures archive.None? ==> merged.None? && sequence == []
    ensures archive.Some? ==> merged == Some(MergeEvents(archive.value, latest)) && Lists(sequence, merged.value)
    ensures complete.Some? <==> HasVerdict(archive, latest)
    ensures complete.Some? ==> complete.value == Gapless(merged.value)
  {
    if archive.None? {
      return None, [], None;
    }
    var events;
    events, sequence, complete := MergeAndJudge(archive.value, latest);
    merged := Some(events);
  }

  method MergeAndJudge(rows: seq<EventRow>, latest: Posted)
    returns (merged: map<int, Event>, sequence: seq<int>, complete: Option<bool>)
    ensures merged == MergeEvents(rows, latest) && Lists(sequence, merged)
    ensures complete.Some? <==> exists n :: n in merged
    ensures complete.Some? ==> complete.value == Gapless(merged)
  {
    var events: map<int, Event> := map[];
    var keys: seq<int> := [];
    var i := 0;
    while i < |rows|
      invariant 0 <= i <= |rows| && events == ArchivedEvents(rows[..i], latest.run)
      invariant forall n :: n in events ==> n in keys
      invariant forall k :: 0 <= k < |keys| ==> keys[k] in events
    {
      assert rows[..i + 1][..i] == rows[..i];
      if rows[i].run == latest.run {
        events := events[rows[i].sequence := rows[i].event];
        keys := keys + [rows[i].sequence];
      }
      i := i + 1;
    }
    assert rows[..i] == rows;
    ghost var archived := events;
    var more := latest.report.events;
    i := 0;
    while i < |more|
      invariant 0 <= i <= |more| && events == WithReport(archived, more[..i])
      invariant forall n :: n in events ==> n in keys
      invariant forall k :: 0 <= k < |keys| ==> keys[k] in events
    {
      assert more[..i + 1][..i] == more[..i];
      if more[i].sequence.Some? {
        events := events[more[i].sequence.value := more[i]];
        keys := keys + [more[i].sequence.value];
      }
      i := i + 1;
    }
    assert more[..i] == more;
    merged := events;
    sequence := Sorted(keys);
    forall n | n in events ensures n in sequence {
      var k :| 0 <= k < |keys| && keys[k] == n;
    }
    if |keys| == 0 {
      return merged, sequence, None;
    }
    assert keys[0] in merged;
    var gapless := CountsFromOne(sequence);
    GaplessExactly(merged, sequence);
    complete := Some(gapless);
  }

  /** Whether the numbers are one, two, three and so on. */
  method CountsFromOne(sequence: seq<int>) returns (yes: bool)
    ensures yes <==> forall i :: 0 <= i < |sequence| ==> sequence[i] == i + 1
  {
    yes := true;
    for i := 0 to |sequence|
      invariant yes <==> forall k :: 0 <= k < i ==> sequence[k] == k + 1
    {
      yes := yes && sequence[i] == i + 1;
    }
  }

  lemma GaplessExactly(events: map<int, Event>, sorted: seq<int>)
    requires Lists(sorted, events)
    ensures Gapless(events) <==> forall i :: 0 <= i < |sorted| ==> sorted[i] == i + 1
  {
    if Gapless(events) {
      forall i | 0 <= i < |sorted| ensures sorted[i] == i + 1 {
        CountUp(events, sorted, i);
      }
    }
    if forall i :: 0 <= i < |sorted| ==> sorted[i] == i + 1 {
      forall n, m | n in events && 1 <= m < n ensures m in events {
        var k :| 0 <= k < |sorted| && sorted[k] == n;
        assert sorted[m - 1] in events;
      }
      forall n | n in events ensures n >= 1 {
        var k :| 0 <= k < |sorted| && sorted[k] == n;
      }
    }
  }

  lemma {:induction false} CountUp(events: map<int, Event>, sorted: seq<int>, i: nat)
    requires Lists(sorted, events) && Gapless(events) && i < |sorted|
    ensures sorted[i] == i + 1
  {
    if i > 0 {
      CountUp(events, sorted, i - 1);
    }
    assert sorted[i] in events;
    NothingBelow(events, sorted, i);
    var next := i + 1;
    assert next < sorted[i] ==> next in events;
  }

  /** No key lies strictly between two neighbours of the listing. */
  lemma NothingBelow(events: map<int, Event>, sorted: seq<int>, i: nat)
    requires Lists(sorted, events) && i < |sorted|
    ensures forall n :: n in events && n < sorted[i] ==> i > 0 && n <= sorted[i - 1]
  {
    forall n | n in events && n < sorted[i] ensures i > 0 && n <= sorted[i - 1] {
      var k :| 0 <= k < |sorted| && sorted[k] == n;
    }
  }

  // ----- incident windows -----

  /** The archived row of highest revision for each window of the run. */
  function HighestRevisions(rows: seq<WindowRow>, run: Option<string>): map<int, (nat, Window)> {
    if rows == [] then map[]
    else
      var row := rows[|rows| - 1];
      var before := HighestRevisions(rows[..|rows| - 1], run);
      if row.run == run && row.revision > Revision(before, row.window.id)
      then before[row.window.id := (row.revision, row.window)] else before
  }

  /** `best` is the row of highest revision for window `id` of the run; revisions start at 1. */
  ghost predicate IsHighest(rows: seq<WindowRow>, run: Option<string>, id: int, best: (nat, Window)) {
    best.0 > 0
    && (exists i :: 0 <= i < |rows| && rows[i].run == run && rows[i].window.id == id
                    && rows[i].revision == best.0 && rows[i].window == best.1)
    && (forall i :: 0 <= i < |rows| && rows[i].run == run && rows[i].window.id == id ==> rows[i].revision <= best.0)
  }

  /** The merge of any file: each window of the run with a row numbered at least 1 gets the row of its
      highest revision, and no other window gets any. */
  lemma {:induction false} MergeIsHighest(rows: seq<WindowRow>, run: Option<string>, id: int)
    ensures var merged := HighestRevisions(rows, run);
            if id in merged then IsHighest(rows, run, id, merged[id])
            else forall i :: 0 <= i < |rows| && rows[i].run == run && rows[i].window.id == id ==> rows[i].revision == 0
  {
    if rows != [] {
      var n := |rows| - 1;
      MergeIsHighest(rows[..n], run, id);
      HighestStep(rows, run, id);
    }
  }

  lemma HighestStep(rows: seq<WindowRow>, run: Option<string>, id: int)
    requires rows != []
    requires var before := HighestRevisions(rows[..|rows| - 1], run);
             if id in before then IsHighest(rows[..|rows| - 1], run, id, before[id])
             else forall i :: 0 <= i < |rows| - 1 && rows[i].run == run && rows[i].window.id == id ==>
                    rows[i].revision == 0
    ensures var merged := HighestRevisions(rows, run);
            if id in merged then IsHighest(rows, run, id, merged[id])
            else forall i :: 0 <= i < |rows| && rows[i].run == run && rows[i].window.id == id ==> rows[i].revision == 0
  {
    var n := |rows| - 1;
    var shorter := rows[..n];
    var merged := HighestRevisions(rows, run);
    if id in merged && id in HighestRevisions(shorter, run) {
      var i :| 0 <= i < n && shorter[i].run == run && shorter[i].window.id == id
               && shorter[i].revision == HighestRevisions(shorter, run)[id].0
               && shorter[i].window == HighestRevisions(shorter, run)[id].1;
      assert rows[i] == shorter[i];
    }
    forall i | 0 <= i < n ensures rows[i] == shorter[i] {}
  }

  method MergeWindows(rows: seq<WindowRow>, run: Option<string>) returns (windows: map<int, (nat, Window)>)
    ensures windows == HighestRevisions(rows, run)
  {
    windows := map[];
    var i := 0;
    while i < |rows|
      invariant 0 <= i <= |rows| && windows == HighestRevisions(rows[..i], run)
    {
      var row := rows[i];
      assert rows[..i + 1][..i] == rows[..i];
      if row.run == run && row.revision > Revision(windows, row.window.id) {
        windows := windows[row.window.id := (row.revision, row.window)];
      }
      i := i + 1;
    }
    assert rows[..i] == rows;
  }
}
