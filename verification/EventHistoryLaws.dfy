/** What the summary may conclude from the archive of one run: the counts add up, every merged event
    is the one that happened, and the completeness flag, exactly. */
module EventHistoryLaws {
  import opened Options
  import opened BrowserReport
  import opened Collector
  import opened EventArchive
  import opened EventHistory
  import opened ReceiverSummary
  import opened Sorting

  /** Under every interleaving: the archived numbers are distinct and ascending, and with the missing
      ones they make up the last archived number. An event is archived exactly when the first
      archived report to reach it still carried it. */
  lemma NumbersAddUp(a: Archive, run: Option<string>, ops: seq<Op>)
    requires Fresh(a, run)
    ensures var w := RunFrom(Begin(a, run), ops);
            var numbers := Numbers(w.archive.eventFile, run);
            Ascends(numbers) && |numbers| + Missing(w.archive, run) == Archived(w.archive, run)
            && Archived(w.archive, run) == Reach(w.saves)
            && forall n: int :: n in numbers <==> Kept(w.saves, n)
  {
    hide Numbers, Kept, Reach, Fresh, BrowserOk, EvictionsOk;
    ReachableWorld(a, run, ops);
  }

  // ----- the merge -----

  lemma {:induction false} ArchivedNumbers(file: seq<EventRow>, run: Option<string>, n: int)
    ensures n in ArchivedEvents(file, run) <==> n in Numbers(file, run)
  {
    if file != [] {
      ArchivedNumbers(file[..|file| - 1], run, n);
    }
  }

  lemma {:induction false} ReportNumbers(events: map<int, Event>, more: seq<Event>, base: nat, n: int)
    requires Contiguous(more, base)
    ensures n in WithReport(events, more) <==> n in events || base < n <= base + |more|
  {
    if more != [] {
      ReportNumbers(events, more[..|more| - 1], base, n);
    }
  }

  lemma MergedNumbers(file: seq<EventRow>, latest: Posted, n: int)
    requires ReportOk(latest.report)
    ensures n in MergeEvents(file, latest)
            <==> n in Numbers(file, latest.run) || Carries(latest.report, n)
  {
    hide WithReport, Numbers, ArchivedEvents;
    ArchivedNumbers(file, latest.run, n);
    ReportNumbers(ArchivedEvents(file, latest.run), latest.report.events, latest.report.eventsDropped, n);
  }

  ghost predicate AllTrue(events: map<int, Event>, trace: seq<string>) {
    forall n :: n in events ==> IsEvent(events[n], n, trace)
  }

  lemma {:induction false} ArchivedEventsAreTrue(file: seq<EventRow>, run: Option<string>, trace: seq<string>)
    requires FileTruthful(file, run, trace)
    ensures AllTrue(ArchivedEvents(file, run), trace)
  {
    hide IsEvent;
    if file != [] {
      ArchivedEventsAreTrue(file[..|file| - 1], run, trace);
      assert file[|file| - 1].run == run ==> IsEvent(file[|file| - 1].event, file[|file| - 1].sequence, trace);
    }
  }

  lemma {:induction false} ReportEventsAreTrue(events: map<int, Event>, more: seq<Event>, base: nat,
                                               trace: seq<string>)
    requires AllTrue(events, trace)
    requires forall i :: 0 <= i < |more| ==> IsEvent(more[i], base + 1 + i, trace)
    ensures AllTrue(WithReport(events, more), trace)
  {
    if more != [] {
      ReportEventsAreTrue(events, more[..|more| - 1], base, trace);
      assert IsEvent(more[|more| - 1], base + |more|, trace);
    }
  }

  /** Every event of the merged history is the one that happened under its number, however its
      reports were delivered. */
  lemma HistoryIsTrue(a: Archive, run: Option<string>, ops: seq<Op>)
    requires Fresh(a, run) && Current(RunFrom(Begin(a, run), ops))
    ensures var w := RunFrom(Begin(a, run), ops);
            AllTrue(MergeEvents(w.archive.eventFile, w.archive.latest.value), w.trace)
  {
    hide Numbers, Kept, Reach, Fresh, BrowserOk, EvictionsOk, SavesOk, AllTrue, FileTruthful, ReportOk, IsEvent;
    ReachableWorld(a, run, ops);
    var w := RunFrom(Begin(a, run), ops);
    var latest := w.archive.latest.value;
    ArchivedEventsAreTrue(w.archive.eventFile, run, w.trace);
    ReportEventsAreTrue(ArchivedEvents(w.archive.eventFile, run), latest.report.events,
                        latest.report.eventsDropped, w.trace);
  }

  // ----- the completeness flag -----

  /** The summary's verdict on the history of the stored report's run, where an archive file lets it
      give one. */
  ghost predicate Complete(w: World)
    requires Current(w)
  {
    Gapless(MergeEvents(w.archive.eventFile, w.archive.latest.value))
  }

  /** How far the merged history reaches. */
  function Top(w: World): nat
    requires Current(w)
  {
    var last := w.archive.latest.value.report.lastSequence;
    if Reach(w.saves) < last then last else Reach(w.saves)
  }

  lemma MergedInWorld(w: World, n: int)
    requires WorldOk(w) && Current(w)
    ensures n in MergeEvents(w.archive.eventFile, w.archive.latest.value)
            <==> Kept(w.saves, n) || Carries(w.archive.latest.value.report, n)
  {
    hide Numbers, Kept, Reach, BrowserOk, EvictionsOk, ReportOk, MergeEvents, FileOk, FileTruthful;
    MergedNumbers(w.archive.eventFile, w.archive.latest.value, n);
  }

  /** Kept numbers are positive. */
  lemma {:induction false} KeptIsPositive(saves: seq<Report>, n: int)
    requires Kept(saves, n)
    ensures n >= 1
  {
    if n <= Reach(saves[..|saves| - 1]) {
      KeptIsPositive(saves[..|saves| - 1], n);
    }
  }

  lemma TopIsMerged(w: World)
    requires WorldOk(w) && Current(w) && Top(w) > 0
    ensures Kept(w.saves, Top(w)) || Carries(w.archive.latest.value.report, Top(w))
  {
    hide Kept, BrowserOk, EvictionsOk, Numbers;
    if Top(w) == Reach(w.saves) {
      LastIsArchived(w);
    }
  }

  lemma LastIsArchived(w: World)
    requires ArchiveOk(w) && SavesOk(w) && Reach(w.saves) > 0
    ensures Kept(w.saves, Reach(w.saves))
  {
    hide Kept, Reach, Numbers, SnapshotOk, FileTruthful;
    var numbers := Numbers(w.archive.eventFile, w.run);
    assert numbers[|numbers| - 1] in numbers;
  }

  /** Exactly when the history is flagged complete: every event up to the furthest is either carried
      by the stored report, or was carried by the first archived report to reach it. */
  lemma CompleteExactly(a: Archive, run: Option<string>, ops: seq<Op>)
    requires Fresh(a, run) && Current(RunFrom(Begin(a, run), ops))
    ensures var w := RunFrom(Begin(a, run), ops);
            Complete(w) <==> forall n: int :: 1 <= n <= Top(w) ==>
              Kept(w.saves, n) || Carries(w.archive.latest.value.report, n)
  {
    hide Fresh, WorldOk;
    ReachableWorld(a, run, ops);
    CompleteInWorld(RunFrom(Begin(a, run), ops));
  }

  lemma CompleteInWorld(w: World)
    requires WorldOk(w) && Current(w)
    ensures Complete(w) <==> forall n: int :: 1 <= n <= Top(w) ==>
              Kept(w.saves, n) || Carries(w.archive.latest.value.report, n)
  {
    hide Kept, Reach, WorldOk, MergeEvents, Top;
    var merged := MergeEvents(w.archive.eventFile, w.archive.latest.value);
    forall n: int
      ensures n in merged <==> Kept(w.saves, n) || Carries(w.archive.latest.value.report, n)
      ensures n in merged ==> 1 <= n <= Top(w)
    {
      MergedInWorld(w, n);
      if n in merged {
        MergedIsBounded(w, n);
      }
    }
    if Top(w) > 0 {
      TopIsMerged(w);
    }
  }

  lemma MergedIsBounded(w: World, n: int)
    requires Current(w) && (Kept(w.saves, n) || Carries(w.archive.latest.value.report, n))
    ensures 1 <= n <= Top(w)
  {
    if Kept(w.saves, n) {
      KeptIsPositive(w.saves, n);
      KeptIsReached(w.saves, n);
    }
  }

  /** However reports are delivered, a history flagged incomplete has lost an event to eviction
      before it was archived. */
  lemma IncompleteMeansEvicted(a: Archive, run: Option<string>, ops: seq<Op>)
    requires Fresh(a, run) && Current(RunFrom(Begin(a, run), ops))
    requires !Complete(RunFrom(Begin(a, run), ops))
    ensures RunFrom(Begin(a, run), ops).early != []
  {
    hide Fresh, Kept, Numbers, Carries, Reach;
    ReachableWorld(a, run, ops);
    var w := RunFrom(Begin(a, run), ops);
    CompleteExactly(a, run, ops);
    var n: int :| 1 <= n <= Top(w) && !(Kept(w.saves, n) || Carries(w.archive.latest.value.report, n));
    AbsentIsEvicted(w, n);
  }

  lemma AbsentIsEvicted(w: World, n: int)
    requires WorldOk(w) && Current(w) && 1 <= n <= Top(w)
    requires !Kept(w.saves, n) && !Carries(w.archive.latest.value.report, n)
    ensures n in w.early
  {
    hide Kept, Numbers, Reach, ReportOk, FileOk, FileTruthful, Truthful;
  }

  // ----- reports that arrive before the ring moves on -----

  /** A report that arrives does so before any further event is evicted. */
  predicate Timely(w: World, op: Op) {
    op.Deliver? && op.at < |w.posted| ==> w.posted[op.at].report.eventsDropped == w.report.eventsDropped
  }

  predicate TimelyRun(w: World, ops: seq<Op>) {
    ops == [] || (TimelyRun(w, ops[..|ops| - 1]) && Timely(RunFrom(w, ops[..|ops| - 1]), ops[|ops| - 1]))
  }

  ghost predicate NeverArchived(numbers: seq<int>, evicted: seq<int>) {
    forall i :: 0 <= i < |evicted| ==> evicted[i] !in numbers
  }

  /** What the archive holds up to the events the stored report had dropped. */
  ghost predicate AtLatestOk(w: World)
    requires Current(w)
  {
    var numbers := Numbers(w.archive.eventFile, w.run);
    var dropped := w.archive.latest.value.report.eventsDropped;
    NeverArchived(numbers, w.earlyAtLatest)
    && (forall n: int :: 1 <= n <= dropped ==> n in numbers || n in w.earlyAtLatest)
    && (forall n: int :: dropped < n <= Archived(w.archive, w.run) ==> n in numbers)
    && (forall i :: 0 <= i < |w.earlyAtLatest| ==> 1 <= w.earlyAtLatest[i] <= dropped)
  }

  ghost predicate TimelyOk(w: World) {
    NeverArchived(Numbers(w.archive.eventFile, w.run), w.early) && (Current(w) ==> AtLatestOk(w))
  }

  lemma HappenKeepsTimely(w: World, detail: string, incident: bool)
    requires TimelyOk(w)
    ensures TimelyOk(Step(w, Happen(detail, incident)))
  {
    hide Numbers, Happened;
  }

  lemma DeliverKeepsEarly(w: World, at: nat, faults: Faults)
    requires WorldOk(w) && TimelyOk(w) && Timely(w, Deliver(at, faults))
    ensures NeverArchived(Numbers(Step(w, Deliver(at, faults)).archive.eventFile, w.run), w.early)
  {
    hide Numbers, Save, Stored, EventsSaved, ReportOk, FileOk, FileTruthful, Truthful, SavesOk, AtLatestOk;
    if at < |w.posted| {
      SaveEffect(w.archive, w.posted[at], faults);
    }
  }

  lemma DeliverKeepsTimely(w: World, at: nat, faults: Faults)
    requires WorldOk(w) && TimelyOk(w) && Timely(w, Deliver(at, faults))
    ensures TimelyOk(Step(w, Deliver(at, faults)))
  {
    hide Numbers, Save, Stored, EventsSaved, ReportOk, FileOk, FileTruthful, Truthful, SavesOk, NeverArchived;
    DeliverKeepsEarly(w, at, faults);
    StepKeepsWorld(w, Deliver(at, faults));
    if at < |w.posted| {
      SaveEffect(w.archive, w.posted[at], faults);
      if !Stored(w.archive, w.posted[at], faults).1 {
        RefusedChangesNothing(w.archive, w.posted[at], faults);
      }
    }
  }

  lemma RefusedChangesNothing(a: Archive, p: Posted, faults: Faults)
    requires !Stored(a, p, faults).1
    ensures SameEvents(a, Save(a, p, faults).0) && Save(a, p, faults).0.latest == a.latest
  {}

  lemma {:induction false} ReachableTimely(a: Archive, run: Option<string>, ops: seq<Op>)
    requires Fresh(a, run) && TimelyRun(Begin(a, run), ops)
    ensures TimelyOk(RunFrom(Begin(a, run), ops))
  {
    hide WorldOk, AtLatestOk, Numbers, NeverArchived, Step, Timely;
    if ops == [] {
      BeginIsTimely(a, run);
    } else {
      var before := RunFrom(Begin(a, run), ops[..|ops| - 1]);
      ReachableTimely(a, run, ops[..|ops| - 1]);
      ReachableWorld(a, run, ops[..|ops| - 1]);
      TimelyStep(before, ops[|ops| - 1]);
    }
  }

  lemma BeginIsTimely(a: Archive, run: Option<string>)
    requires Fresh(a, run)
    ensures TimelyOk(Begin(a, run))
  {}

  lemma TimelyStep(w: World, op: Op)
    requires WorldOk(w) && TimelyOk(w) && Timely(w, op)
    ensures TimelyOk(Step(w, op))
  {
    hide WorldOk, Numbers, NeverArchived, Timely;
    match op {
      case Happen(detail, incident) => HappenKeepsTimely(w, detail, incident);
      case Poll(sample) =>
      case Post(valid, terminal, size) =>
      case Deliver(at, faults) => DeliverKeepsTimely(w, at, faults);
    }
  }

  /** When no event is evicted between the taking of a report and its arrival, the history is flagged
      complete exactly when, up to the report stored last, no event was evicted before it was
      archived: for every mix of refused, failed, repeated and reordered saves. */
  lemma CompleteIfNothingWasEvictedEarly(a: Archive, run: Option<string>, ops: seq<Op>)
    requires Fresh(a, run) && TimelyRun(Begin(a, run), ops)
    requires Current(RunFrom(Begin(a, run), ops))
    ensures var w := RunFrom(Begin(a, run), ops);
            Complete(w) <==> w.earlyAtLatest == []
  {
    hide Fresh, WorldOk, AtLatestOk, TimelyRun;
    ReachableWorld(a, run, ops);
    ReachableTimely(a, run, ops);
    CompleteWhenTimely(RunFrom(Begin(a, run), ops));
  }

  lemma CompleteWhenTimely(w: World)
    requires WorldOk(w) && Current(w) && AtLatestOk(w)
    ensures Complete(w) <==> w.earlyAtLatest == []
  {
    hide Numbers, Kept, Reach, Complete, EvictionsOk, BrowserOk, FileOk, FileTruthful, Truthful;
    CompleteInWorld(w);
    if w.earlyAtLatest != [] {
      var lost := w.earlyAtLatest[0];
      assert lost !in Numbers(w.archive.eventFile, w.run);
      assert !Kept(w.saves, lost) && !Carries(w.archive.latest.value.report, lost);
    }
  }

  // ----- a late report -----

  const LATE_RUN: Option<string> := Some("run")

  function Happens(n: nat): seq<Op> {
    if n == 0 then [] else Happens(n - 1) + [Happen("", false)]
  }

  const NO_FAULTS := Faults(false, false, false, false, false)

  const BEFORE := Begin(NEW_ARCHIVE, LATE_RUN)

  /** A full ring is reported; one more event evicts the first; that is reported too; then both
      reports arrive. */
  function LateOps(): seq<Op> {
    Happens(EVENT_CAP) + [Post(true, false, 0)] + [Happen("", false)] + [Post(true, false, 0)]
    + [Deliver(0, NO_FAULTS)] + [Deliver(1, NO_FAULTS)]
  }

  ghost predicate Blank(events: seq<Event>) {
    forall i :: 0 <= i < |events| ==> events[i].detail == ""
  }

  /** A report of `n` blank events and no windows, `dropped` of them evicted. */
  ghost predicate BlankReport(r: Report, dropped: nat, last: nat) {
    Blank(r.events) && r.windows == [] && r.eventsDropped == dropped && r.lastSequence == last
    && |r.events| == last - dropped
  }

  lemma {:induction false} AfterHappens(n: nat)
    requires n <= EVENT_CAP
    ensures var w := RunFrom(BEFORE, Happens(n));
            w == World(LATE_RUN, w.report, w.trace, [], NEW_ARCHIVE, [], [], []) && BlankReport(w.report, 0, n)
  {
    hide Step, BlankReport, RunFrom;
    if n == 0 {
      StartsBlank();
    } else {
      AfterHappens(n - 1);
      OneMore(BEFORE, Happens(n - 1), Happen("", false));
      OneMoreBlank(RunFrom(BEFORE, Happens(n - 1)), n - 1);
    }
  }

  lemma StartsBlank()
    ensures RunFrom(BEFORE, []) == BEFORE && BlankReport(NEW_REPORT, 0, 0)
  {}

  lemma OneMoreBlank(w: World, n: nat)
    requires BlankReport(w.report, 0, n) && n < EVENT_CAP
    ensures var after := Step(w, Happen("", false));
            after == w.(report := after.report, trace := after.trace) && BlankReport(after.report, 0, n + 1)
  {
    hide Numbers;
    assert w.early + [] == w.early;
  }

  lemma OneMore(w: World, ops: seq<Op>, op: Op)
    ensures RunFrom(w, ops + [op]) == Step(RunFrom(w, ops), op)
  {
    assert (ops + [op])[..|ops|] == ops;
  }

  lemma {:induction false} BlankSelection(events: seq<Event>, after: int)
    requires Blank(events)
    ensures |NewEvents(events, after)| <= |events| && Blank(NewEvents(events, after))
  {
    if events != [] {
      BlankSelection(events[..|events| - 1], after);
    }
  }

  lemma {:induction false} BlankBytes(rows: seq<EventRow>)
    requires forall i :: 0 <= i < |rows| ==> rows[i].event.detail == ""
    ensures EventBytes(rows) == |rows|
  {
    if rows != [] {
      BlankBytes(rows[..|rows| - 1]);
    }
  }

  lemma BlankSave(a: Archive, p: Posted)
    requires p.valid && !p.terminal && Blank(p.report.events) && p.report.windows == []
    requires a.bytes + |p.report.events| <= ARCHIVE_LIMIT
    ensures Stored(a, p, NO_FAULTS).1 && EventsSaved(a, p, NO_FAULTS)
    ensures Save(a, p, NO_FAULTS).0.latest == Some(p)
    ensures Save(a, p, NO_FAULTS).0.bytes <= a.bytes + |p.report.events|
  {
    hide NewEvents, EventBytes, Counted;
    var b := ForRun(Stored(a, p, NO_FAULTS).0, p.run);
    BlankSelection(p.report.events, b.archivedSequence);
    BlankBytes(EventRows(p.run, NewEvents(p.report.events, b.archivedSequence)));
  }

  /** The two reports are posted, and the first event was evicted before either arrived. */
  lemma BothPosted()
    ensures var ops := Happens(EVENT_CAP) + [Post(true, false, 0)] + [Happen("", false)] + [Post(true, false, 0)];
            var w := RunFrom(BEFORE, ops);
            w == World(LATE_RUN, w.report, w.trace, w.posted, NEW_ARCHIVE, [], [1], [])
            && |w.posted| == 2
            && w.posted[0] == Posted(LATE_RUN, true, false, w.posted[0].report, 0)
            && w.posted[1] == Posted(LATE_RUN, true, false, w.posted[1].report, 0)
            && BlankReport(w.posted[0].report, 0, EVENT_CAP)
            && BlankReport(w.posted[1].report, 1, EVENT_CAP + 1)
  {
    hide RunFrom, Happens;
    var filled := Happens(EVENT_CAP);
    AfterHappens(EVENT_CAP);
    OneMore(BEFORE, filled, Post(true, false, 0));
    OneMore(BEFORE, filled + [Post(true, false, 0)], Happen("", false));
    OneMore(BEFORE, filled + [Post(true, false, 0)] + [Happen("", false)], Post(true, false, 0));
  }

  /** Without that condition the flag says less: here the history is complete although the first
      event was evicted before it was archived. */
  lemma LateReportsCanComplete()
    ensures var w := RunFrom(BEFORE, LateOps());
            Fresh(NEW_ARCHIVE, LATE_RUN) && Current(w) && Complete(w) && w.earlyAtLatest == [1]
  {
    hide RunFrom, Happens, Save, Stored, EventsSaved, Complete, Kept, Reach, Begin;
    var ops := Happens(EVENT_CAP) + [Post(true, false, 0)] + [Happen("", false)] + [Post(true, false, 0)];
    BothPosted();
    var w := RunFrom(BEFORE, ops);
    OneMore(BEFORE, ops, Deliver(0, NO_FAULTS));
    OneMore(BEFORE, ops + [Deliver(0, NO_FAULTS)], Deliver(1, NO_FAULTS));
    BlankSave(NEW_ARCHIVE, w.posted[0]);
    BlankSave(Save(NEW_ARCHIVE, w.posted[0], NO_FAULTS).0, w.posted[1]);
    BothKept(w.posted[0].report, w.posted[1].report);
    assert [] + [w.posted[0].report] + [w.posted[1].report] == [w.posted[0].report, w.posted[1].report];
    CompleteExactly(NEW_ARCHIVE, LATE_RUN, LateOps());
  }

  lemma BothKept(first: Report, second: Report)
    requires BlankReport(first, 0, EVENT_CAP) && BlankReport(second, 1, EVENT_CAP + 1)
    ensures Reach([first, second]) == EVENT_CAP + 1
    ensures forall n: int :: 1 <= n <= EVENT_CAP + 1 ==> Kept([first, second], n)
  {
    assert [first, second][..1] == [first];
    assert [first][..0] == [];
    assert Reach([]) == 0;
  }
}
