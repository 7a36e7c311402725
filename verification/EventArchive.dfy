/** The event archive of `benchmarks/receiver_checkpoint.py` under one save: which numbers it adds,
    and what the counters say about the file. */
module EventArchive {
  import opened Options
  import opened BrowserReport
  import opened Collector
  import opened Sorting

  /** The numbers archived for a run, in file order. */
  function Numbers(file: seq<EventRow>, run: Option<string>): seq<int> {
    if file == [] then []
    else
      var row := file[|file| - 1];
      Numbers(file[..|file| - 1], run) + if row.run == run then [row.sequence] else []
  }

  /** How far the collector has got with a run. */
  function Archived(a: Archive, run: Option<string>): int {
    if a.run == run then a.archivedSequence else 0
  }

  function Missing(a: Archive, run: Option<string>): nat {
    if a.run == run then a.missing else 0
  }

  /** The archived numbers ascend, the last of them is the collector's own, and the rest of the
      numbers up to it are counted as missing. */
  ghost predicate CountsAgree(numbers: seq<int>, archived: int, missing: nat) {
    Ascends(numbers) && (forall i :: 0 <= i < |numbers| ==> numbers[i] >= 1)
    && |numbers| + missing == archived
    && (if numbers == [] then archived == 0 else numbers[|numbers| - 1] == archived)
  }

  ghost predicate FileOk(a: Archive, run: Option<string>) {
    CountsAgree(Numbers(a.eventFile, run), Archived(a, run), Missing(a, run))
  }

  // ----- the events a save adds -----

  /** The report's events are numbered from `base + 1` on. */
  ghost predicate Contiguous(events: seq<Event>, base: nat) {
    forall i :: 0 <= i < |events| ==> events[i].sequence == Some(base + 1 + i)
  }

  function Passed(after: int, base: nat, n: nat): (k: nat)
    ensures k <= n
  {
    if after <= base then 0 else if after - base <= n then after - base else n
  }

  lemma {:induction false} NewEventsAreASuffix(events: seq<Event>, base: nat, after: int)
    requires Contiguous(events, base)
    ensures NewEvents(events, after) == events[Passed(after, base, |events|)..]
  {
    if events != [] {
      var n := |events| - 1;
      NewEventsAreASuffix(events[..n], base, after);
      var k := Passed(after, base, n);
      if base + 1 + n > after {
        assert events[..n][k..] + [events[n]] == events[k..];
      } else {
        assert events[..n][k..] == [];
      }
    }
  }

  /** Rows of one run, numbered upwards from `first` without a gap. */
  ghost predicate RowsFrom(rows: seq<EventRow>, run: Option<string>, first: int) {
    forall i :: 0 <= i < |rows| ==> rows[i].run == run && rows[i].sequence == first + i
  }

  lemma {:induction false} CountedInOrder(rows: seq<EventRow>, run: Option<string>, first: int, archived: int,
                                          missing: nat)
    requires rows != [] && RowsFrom(rows, run, first) && first > archived
    ensures Counted(rows, archived, missing) == (first + |rows| - 1, missing + (first - archived - 1))
  {
    var n := |rows| - 1;
    if n > 0 {
      CountedInOrder(rows[..n], run, first, archived, missing);
    } else {
      assert Counted(rows[..n], archived, missing) == (archived, missing);
    }
  }

  function CountFrom(first: int, n: nat): (s: seq<int>)
    ensures |s| == n && forall i :: 0 <= i < n ==> s[i] == first + i
  {
    seq(n, i => first + i)
  }

  lemma {:induction false} NumbersGrow(file: seq<EventRow>, rows: seq<EventRow>, run: Option<string>, first: int)
    requires RowsFrom(rows, run, first)
    ensures Numbers(file + rows, run) == Numbers(file, run) + CountFrom(first, |rows|)
  {
    if rows == [] {
      assert file + rows == file;
    } else {
      var n := |rows| - 1;
      NumbersGrow(file, rows[..n], run, first);
      assert (file + rows)[..|file + rows| - 1] == file + rows[..n];
    }
  }

  lemma CountsGrow(numbers: seq<int>, archived: int, missing: nat, first: int, n: nat)
    requires CountsAgree(numbers, archived, missing) && first > archived && n > 0
    ensures CountsAgree(numbers + CountFrom(first, n), first + n - 1, missing + (first - archived - 1))
  {}

  function Max(a: int, b: int): int {
    if a < b then b else a
  }

  /** A save of a report whose events are the newest ones of its run adds exactly those above both
      what is archived and what the report has dropped; a refused one adds none. */
  lemma SaveAddsTheRest(a: Archive, p: Posted, fails: bool)
    requires FileOk(a, p.run) && ReportOk(p.report)
    ensures var (after, ok) := ArchiveEvents(a, p, fails);
            FileOk(after, p.run) && after.run == p.run
            && Archived(after, p.run) == (if ok then Max(Archived(a, p.run), p.report.lastSequence)
                                          else Archived(a, p.run))
            && forall n: int :: n in Numbers(after.eventFile, p.run)
                 <==> n in Numbers(a.eventFile, p.run)
                      || (ok && Max(Archived(a, p.run), p.report.eventsDropped) < n <= p.report.lastSequence)
  {
    hide Numbers, EventBytes, CountsAgree, NewEvents, Counted, Contiguous, RowsFrom;
    var b := ForRun(a, p.run);
    var (after, ok) := ArchiveEvents(a, p, fails);
    var events := p.report.events;
    var dropped := p.report.eventsDropped;
    var k := Passed(b.archivedSequence, dropped, |events|);
    var rows := EventRows(p.run, NewEvents(events, b.archivedSequence));
    NothingNegative(Numbers(a.eventFile, p.run), b.archivedSequence, b.missing);
    NewRows(p, b.archivedSequence);
    if after.eventFile != a.eventFile {
      NumbersGrow(a.eventFile, rows, p.run, dropped + k + 1);
      CountedInOrder(rows, p.run, dropped + k + 1, b.archivedSequence, b.missing);
      CountsGrow(Numbers(a.eventFile, p.run), b.archivedSequence, b.missing, dropped + k + 1, |rows|);
      InRange(dropped + k + 1, |rows|);
    }
  }

  lemma NewRows(p: Posted, after: int)
    requires ReportOk(p.report) && after >= 0
    ensures var k := Passed(after, p.report.eventsDropped, |p.report.events|);
            var rows := EventRows(p.run, NewEvents(p.report.events, after));
            RowsFrom(rows, p.run, p.report.eventsDropped + k + 1)
            && |rows| == |p.report.events| - k
            && (rows == [] ==> p.report.lastSequence <= after)
            && forall i :: 0 <= i < |rows| ==> rows[i].event == p.report.events[k + i]
  {
    NewEventsAreASuffix(p.report.events, p.report.eventsDropped, after);
  }

  lemma InRange(first: int, n: nat)
    ensures forall m: int :: m in CountFrom(first, n) <==> first <= m < first + n
  {
    forall m: int | first <= m < first + n ensures m in CountFrom(first, n) {
      assert CountFrom(first, n)[m - first] == m;
    }
  }

  lemma NothingNegative(numbers: seq<int>, archived: int, missing: nat)
    requires CountsAgree(numbers, archived, missing)
    ensures archived >= 0
  {}

  // ----- what the archived events say -----

  /** `Event` number n of a run whose details so far are `trace`. */
  predicate IsEvent(e: Event, n: int, trace: seq<string>) {
    1 <= n <= |trace| && e == Event(Some(n), trace[n - 1])
  }

  /** The report retains the newest of the run's events as they happened. */
  ghost predicate Truthful(r: Report, trace: seq<string>) {
    r.lastSequence <= |trace|
    && forall i :: 0 <= i < |r.events| ==> IsEvent(r.events[i], r.eventsDropped + 1 + i, trace)
  }

  ghost predicate FileTruthful(file: seq<EventRow>, run: Option<string>, trace: seq<string>) {
    forall j :: 0 <= j < |file| && file[j].run == run ==> IsEvent(file[j].event, file[j].sequence, trace)
  }

  lemma SaveKeepsTruth(a: Archive, p: Posted, fails: bool, trace: seq<string>)
    requires FileOk(a, p.run) && ReportOk(p.report)
    requires FileTruthful(a.eventFile, p.run, trace) && Truthful(p.report, trace)
    ensures FileTruthful(ArchiveEvents(a, p, fails).0.eventFile, p.run, trace)
  {
    hide Numbers, EventBytes, CountsAgree, NewEvents, Counted, IsEvent, ReportOk;
    var b := ForRun(a, p.run);
    NothingNegative(Numbers(a.eventFile, p.run), b.archivedSequence, b.missing);
    NewRows(p, b.archivedSequence);
  }
}
