/** One run's events from the browser to the summary: what survives when events are evicted from the
    ring, and reports arrive late, repeatedly, out of order, or fail to be saved. */
module EventHistory {
  import opened Options
  import opened BrowserReport
  import opened Collector
  import opened EventArchive

  /** A run in progress. `trace` lists the details of every event so far, `posted` the reports sent,
      `saves` the reports whose events were archived, in order. `early` lists the events evicted
      from the ring while unarchived, and `earlyAtLatest` its value when the stored report was last
      replaced. */
  datatype World = World(
    run: Option<string>, report: Report, trace: seq<string>, posted: seq<Posted>, archive: Archive,
    saves: seq<Report>, early: seq<int>, earlyAtLatest: seq<int>)

  datatype Op =
    | Happen(detail: string, incident: bool)
    | Poll(sample: string)
    | Post(valid: bool, terminal: bool, size: nat)
    | Deliver(at: nat, faults: Faults)

  /** A run the archive knows nothing of. */
  ghost predicate Fresh(a: Archive, run: Option<string>) {
    (forall j :: 0 <= j < |a.eventFile| ==> a.eventFile[j].run != run)
    && Archived(a, run) == 0 && Missing(a, run) == 0
    && (a.latest.Some? ==> a.latest.value.run != run)
  }

  function Begin(a: Archive, run: Option<string>): World {
    World(run, NEW_REPORT, [], [], a, [], [], [])
  }

  function EventsSaved(a: Archive, p: Posted, faults: Faults): bool {
    var (b, stored) := Stored(a, p, faults);
    stored && !faults.checkpoint && ArchiveEvents(b, p, faults.events).1
  }

  function Evicting(w: World): seq<int> {
    var oldest := w.report.eventsDropped + 1;
    if |w.report.events| >= EVENT_CAP && oldest !in Numbers(w.archive.eventFile, w.run) then [oldest] else []
  }

  /** Any report posted so far may arrive, at any time and any number of times. */
  function Step(w: World, op: Op): World {
    match op
    case Happen(detail, incident) =>
      w.(report := Happened(w.report, detail, incident), trace := w.trace + [detail],
         early := w.early + Evicting(w))
    case Poll(sample) => w.(report := Polled(w.report, sample))
    case Post(valid, terminal, size) =>
      w.(posted := w.posted + [Posted(w.run, valid, terminal, w.report, size)])
    case Deliver(at, faults) =>
      if at >= |w.posted| then w
      else
        var p := w.posted[at];
        w.(archive := Save(w.archive, p, faults).0,
           saves := if EventsSaved(w.archive, p, faults) then w.saves + [p.report] else w.saves,
           earlyAtLatest := if Stored(w.archive, p, faults).1 then w.early else w.earlyAtLatest)
  }

  function RunFrom(w: World, ops: seq<Op>): World {
    if ops == [] then w else Step(RunFrom(w, ops[..|ops| - 1]), ops[|ops| - 1])
  }

  // ----- which numbers are kept -----

  /** The furthest number any archived report reached. */
  function Reach(saves: seq<Report>): nat {
    if saves == [] then 0
    else
      var last := saves[|saves| - 1];
      var before := Reach(saves[..|saves| - 1]);
      if before < last.lastSequence then last.lastSequence else before
  }

  /** The first archived report to reach event `n` still carried it. */
  function Kept(saves: seq<Report>, n: int): bool {
    if saves == [] then false
    else
      var last := saves[|saves| - 1];
      var before := saves[..|saves| - 1];
      if n <= Reach(before) then Kept(before, n) else Carries(last, n)
  }

  predicate Carries(r: Report, n: int) {
    r.eventsDropped < n <= r.lastSequence
  }

  lemma {:induction false} KeptIsReached(saves: seq<Report>, n: int)
    requires Kept(saves, n)
    ensures n <= Reach(saves)
  {
    if n <= Reach(saves[..|saves| - 1]) {
      KeptIsReached(saves[..|saves| - 1], n);
    }
  }

  // ----- what holds in every reachable world -----

  ghost predicate SnapshotOk(r: Report, w: World) {
    ReportOk(r) && Truthful(r, w.trace) && r.eventsDropped <= w.report.eventsDropped
  }

  ghost predicate BrowserOk(w: World) {
    SnapshotOk(w.report, w) && w.report.lastSequence == |w.trace|
    && forall i :: 0 <= i < |w.posted| ==> w.posted[i].run == w.run && SnapshotOk(w.posted[i].report, w)
  }

  /** The stored report belongs to this run. */
  predicate Current(w: World) {
    w.archive.latest.Some? && w.archive.latest.value.run == w.run
  }

  ghost predicate ArchiveOk(w: World) {
    FileOk(w.archive, w.run) && FileTruthful(w.archive.eventFile, w.run, w.trace)
    && (Current(w) ==> SnapshotOk(w.archive.latest.value.report, w))
  }

  ghost predicate SavesOk(w: World) {
    Archived(w.archive, w.run) == Reach(w.saves)
    && forall n: int :: n in Numbers(w.archive.eventFile, w.run) <==> Kept(w.saves, n)
  }

  /** Every evicted event is archived or was evicted early, and every event that is archived or
      overtaken, and still in the ring, is archived. */
  ghost predicate EvictionsOk(w: World) {
    (forall n: int :: 1 <= n <= w.report.eventsDropped ==>
       n in Numbers(w.archive.eventFile, w.run) || n in w.early)
    && (forall n: int :: w.report.eventsDropped < n <= Archived(w.archive, w.run) ==>
          n in Numbers(w.archive.eventFile, w.run))
    && (forall i :: 0 <= i < |w.early| ==> 1 <= w.early[i] <= w.report.eventsDropped)
  }

  ghost predicate WorldOk(w: World) {
    BrowserOk(w) && ArchiveOk(w) && SavesOk(w) && EvictionsOk(w)
  }

  // ----- one save -----

  lemma SaveEffect(a: Archive, p: Posted, faults: Faults)
    requires FileOk(a, p.run) && ReportOk(p.report)
    ensures var after := Save(a, p, faults).0;
            var ok := EventsSaved(a, p, faults);
            FileOk(after, p.run)
            && Archived(after, p.run) == (if ok then Max(Archived(a, p.run), p.report.lastSequence)
                                          else Archived(a, p.run))
            && (forall n: int :: n in Numbers(after.eventFile, p.run)
                  <==> n in Numbers(a.eventFile, p.run)
                       || (ok && Max(Archived(a, p.run), p.report.eventsDropped) < n <= p.report.lastSequence))
            && after.latest == if Stored(a, p, faults).1 then Some(p) else a.latest
  {
    hide Numbers, ReportOk, CountsAgree;
    SaveParts(a, p, faults);
    var (b, stored) := Stored(a, p, faults);
    if stored && !faults.checkpoint {
      SaveAddsTheRest(b, p, faults.events);
    }
  }

  /** Only the event part of a save touches the event file and its counters. */
  lemma SaveParts(a: Archive, p: Posted, faults: Faults)
    ensures var (b, stored) := Stored(a, p, faults);
            var c := if stored && !faults.checkpoint then ArchiveEvents(b, p, faults.events).0 else b;
            var after := Save(a, p, faults).0;
            SameEvents(a, b) && SameEvents(c, after)
            && after.latest == if stored then Some(p) else a.latest
  {
    hide ArchiveEvents, ArchiveWindows;
    var (b, stored) := Stored(a, p, faults);
    if stored && !faults.checkpoint {
      var c := ArchiveEvents(b, p, faults.events).0;
      EventsKeepLatest(b, p, faults.events);
      WindowsKeepEvents(c, p, faults.windows);
    }
  }

  lemma EventsKeepLatest(a: Archive, p: Posted, fails: bool)
    ensures ArchiveEvents(a, p, fails).0.latest == a.latest
  {}

  lemma WindowsKeepEvents(a: Archive, p: Posted, fails: bool)
    ensures SameEvents(a, ArchiveWindows(a, p, fails).0)
    ensures ArchiveWindows(a, p, fails).0.latest == a.latest
  {}

  predicate SameEvents(a: Archive, b: Archive) {
    a.eventFile == b.eventFile && a.run == b.run && a.archivedSequence == b.archivedSequence
    && a.missing == b.missing
  }

  lemma SaveIsTruthful(a: Archive, p: Posted, faults: Faults, trace: seq<string>)
    requires FileOk(a, p.run) && ReportOk(p.report)
    requires FileTruthful(a.eventFile, p.run, trace) && Truthful(p.report, trace)
    ensures FileTruthful(Save(a, p, faults).0.eventFile, p.run, trace)
  {
    hide Numbers, ReportOk, CountsAgree, Truthful, FileTruthful;
    SaveParts(a, p, faults);
    var (b, stored) := Stored(a, p, faults);
    if stored && !faults.checkpoint {
      SaveKeepsTruth(b, p, faults.events, trace);
    }
  }

  // ----- every step keeps the world well formed -----

  lemma HappenKeepsBrowser(w: World, detail: string, incident: bool)
    requires BrowserOk(w)
    ensures BrowserOk(Step(w, Happen(detail, incident)))
  {
    hide ReportOk, Triggered;
    HappenedKeepsReport(w.report, detail, incident);
    HappenedIsTruthful(w.report, w.trace, detail, incident);
    forall i | 0 <= i < |w.posted| ensures Truthful(w.posted[i].report, w.trace + [detail]) {}
  }

  lemma HappenedIsTruthful(r: Report, trace: seq<string>, detail: string, incident: bool)
    requires ReportOk(r) && Truthful(r, trace) && r.lastSequence == |trace|
    ensures Truthful(Happened(r, detail, incident), trace + [detail])
    ensures Happened(r, detail, incident).lastSequence == |trace| + 1
    ensures Happened(r, detail, incident).eventsDropped == r.eventsDropped + if |r.events| >= EVENT_CAP then 1 else 0
  {}

  lemma HappenKeepsArchive(w: World, detail: string, incident: bool)
    requires BrowserOk(w) && ArchiveOk(w)
    ensures ArchiveOk(Step(w, Happen(detail, incident)))
  {
    hide ReportOk, FileOk, Triggered;
    HappenedIsTruthful(w.report, w.trace, detail, incident);
  }

  lemma HappenKeepsEvictions(w: World, detail: string, incident: bool)
    requires BrowserOk(w) && EvictionsOk(w)
    ensures EvictionsOk(Step(w, Happen(detail, incident)))
  {
    hide ReportOk, Triggered, Numbers, Truthful;
    HappenedIsTruthful(w.report, w.trace, detail, incident);
    var after := Step(w, Happen(detail, incident));
    assert |w.early| < |after.early| ==> after.early[|w.early|] == w.report.eventsDropped + 1;
  }

  lemma DeliverKeepsArchive(w: World, at: nat, faults: Faults)
    requires WorldOk(w)
    ensures ArchiveOk(Step(w, Deliver(at, faults)))
  {
    hide ReportOk, FileOk, Truthful, FileTruthful, Numbers, SavesOk, EvictionsOk, Stored, EventsSaved;
    if at < |w.posted| {
      SaveEffect(w.archive, w.posted[at], faults);
      SaveIsTruthful(w.archive, w.posted[at], faults, w.trace);
    }
  }

  lemma DeliverKeepsSaves(w: World, at: nat, faults: Faults)
    requires WorldOk(w)
    ensures SavesOk(Step(w, Deliver(at, faults)))
  {
    hide ReportOk, FileOk, Truthful, FileTruthful, Numbers, EvictionsOk, Stored, EventsSaved, Save;
    if at < |w.posted| {
      var p := w.posted[at];
      SaveEffect(w.archive, p, faults);
      if EventsSaved(w.archive, p, faults) {
        var longer := w.saves + [p.report];
        assert longer[..|w.saves|] == w.saves;
        forall n: int ensures Kept(longer, n) <==>
            Kept(w.saves, n) || (Max(Reach(w.saves), p.report.eventsDropped) < n <= p.report.lastSequence)
        {
          if Kept(w.saves, n) {
            KeptIsReached(w.saves, n);
          }
        }
      }
    }
  }

  lemma DeliverKeepsEvictions(w: World, at: nat, faults: Faults)
    requires WorldOk(w)
    ensures EvictionsOk(Step(w, Deliver(at, faults)))
  {
    hide ReportOk, FileOk, Truthful, FileTruthful, Numbers, SavesOk, Stored, EventsSaved, Save;
    if at < |w.posted| {
      SaveEffect(w.archive, w.posted[at], faults);
    }
  }

  lemma StepKeepsWorld(w: World, op: Op)
    requires WorldOk(w)
    ensures WorldOk(Step(w, op))
  {
    hide SnapshotOk, ArchiveOk, SavesOk, EvictionsOk, BrowserOk;
    match op {
      case Happen(detail, incident) =>
        HappenKeepsBrowser(w, detail, incident);
        HappenKeepsArchive(w, detail, incident);
        HappenKeepsEvictions(w, detail, incident);
        HappenKeepsSaves(w, detail, incident);
      case Poll(sample) =>
        QuietStepKeepsWorld(w, op);
      case Post(valid, terminal, size) =>
        QuietStepKeepsWorld(w, op);
      case Deliver(at, faults) =>
        DeliverKeepsBrowser(w, at, faults);
        DeliverKeepsArchive(w, at, faults);
        DeliverKeepsSaves(w, at, faults);
        DeliverKeepsEvictions(w, at, faults);
    }
  }

  lemma HappenKeepsSaves(w: World, detail: string, incident: bool)
    requires SavesOk(w)
    ensures SavesOk(Step(w, Happen(detail, incident)))
  {
    hide Numbers, Kept, Reach, Happened;
  }

  lemma DeliverKeepsBrowser(w: World, at: nat, faults: Faults)
    requires BrowserOk(w)
    ensures BrowserOk(Step(w, Deliver(at, faults)))
  {
    hide ReportOk, Truthful, Save, Stored, EventsSaved;
  }

  lemma QuietStepKeepsWorld(w: World, op: Op)
    requires WorldOk(w) && (op.Poll? || op.Post?)
    ensures WorldOk(Step(w, op))
  {
    hide ReportOk, FileOk, FileTruthful, Numbers, Reach, Kept;
    if op.Poll? {
      PolledKeepsReport(w.report, op.sample);
    }
  }

  lemma BeginIsOk(a: Archive, run: Option<string>)
    requires Fresh(a, run)
    ensures WorldOk(Begin(a, run))
  {
    NoNumbers(a.eventFile, run);
  }

  lemma {:induction false} NoNumbers(file: seq<EventRow>, run: Option<string>)
    requires forall j :: 0 <= j < |file| ==> file[j].run != run
    ensures Numbers(file, run) == []
  {
    if file != [] {
      NoNumbers(file[..|file| - 1], run);
    }
  }

  lemma {:induction false} ReachableWorld(a: Archive, run: Option<string>, ops: seq<Op>)
    requires Fresh(a, run)
    ensures WorldOk(RunFrom(Begin(a, run), ops)) && RunFrom(Begin(a, run), ops).run == run
  {
    hide WorldOk, Fresh;
    var w := RunFrom(Begin(a, run), ops);
    if ops == [] {
      BeginIsOk(a, run);
    } else {
      ReachableWorld(a, run, ops[..|ops| - 1]);
      StepKeepsWorld(RunFrom(Begin(a, run), ops[..|ops| - 1]), ops[|ops| - 1]);
    }
  }
}
