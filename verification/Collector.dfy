/** The report collector of `benchmarks/receiver_checkpoint.py`. Its output files are fields here;
    an append happens whole or not at all, and a digest stands for the content it identifies. */
module Collector {
  import opened Options
  import opened BrowserReport

  const ARCHIVE_LIMIT: nat := 64 * 1024 * 1024
  const MAX_WINDOW_ID: int := 21600

  /** A posted report: the observation it belongs to, whether it is well formed and terminal, and
      its encoded size. */
  datatype Posted = Posted(
    run: Option<string>, valid: bool, terminal: bool, report: Report, size: nat)

  datatype EventRow = EventRow(run: Option<string>, sequence: int, event: Event)

  datatype WindowRow = WindowRow(run: Option<string>, revision: nat, window: Window)

  datatype Archive = Archive(
    run: Option<string>,
    archivedSequence: int,
    missing: nat,
    eventFile: seq<EventRow>,
    windowRun: Option<string>,
    revisions: map<int, (nat, Window)>,
    windowFile: seq<WindowRow>,
    finals: set<Posted>,
    latest: Option<Posted>,
    bytes: nat)

  const NEW_ARCHIVE := Archive(None, 0, 0, [], None, map[], [], {}, None, 0)

  /** Which of the writes of one save fail. */
  datatype Faults = Faults(final: bool, latest: bool, checkpoint: bool, events: bool, windows: bool)

  // ----- events -----

  /** The events not yet archived, in report order. */
  function NewEvents(events: seq<Event>, after: int): seq<Event> {
    if events == [] then []
    else
      var last := events[|events| - 1];
      NewEvents(events[..|events| - 1], after)
      + (if last.sequence.Some? && last.sequence.value > after then [last] else [])
  }

  function EventRows(run: Option<string>, events: seq<Event>): (rows: seq<EventRow>)
    ensures |rows| == |events|
  {
    seq(|events|, i requires 0 <= i < |events| =>
      EventRow(run, if events[i].sequence.Some? then events[i].sequence.value else 0, events[i]))
  }

  /** Stands for the encoded size of the rows; every row has at least its line end. */
  function EventBytes(rows: seq<EventRow>): nat {
    if rows == [] then 0
    else EventBytes(rows[..|rows| - 1]) + |rows[|rows| - 1].event.detail| + 1
  }

  /** The counters after these rows: the last number, and the numbers passed over. */
  function Counted(rows: seq<EventRow>, archived: int, missing: nat): (int, nat) {
    if rows == [] then (archived, missing)
    else
      var (before, passed) := Counted(rows[..|rows| - 1], archived, missing);
      var number := rows[|rows| - 1].sequence;
      (number, passed + if number > before + 1 then number - before - 1 else 0)
  }

  function ForRun(a: Archive, run: Option<string>): Archive {
    if run == a.run then a else a.(run := run, archivedSequence := 0, missing := 0)
  }

  function ArchiveEvents(a: Archive, p: Posted, fails: bool): (Archive, bool) {
    var b := ForRun(a, p.run);
    var rows := EventRows(p.run, NewEvents(p.report.events, b.archivedSequence));
    if rows == [] then (b, true)
    else if b.bytes + EventBytes(rows) > ARCHIVE_LIMIT || fails then (b, false)
    else
      var (archived, missing) := Counted(rows, b.archivedSequence, b.missing);
      (b.(eventFile := b.eventFile + rows, archivedSequence := archived, missing := missing,
          bytes := b.bytes + EventBytes(rows)), true)
  }

  // ----- incident windows -----

  function Revision(revisions: map<int, (nat, Window)>, id: int): nat {
    if id in revisions then revisions[id].0 else 0
  }

  predicate Changed(revisions: map<int, (nat, Window)>, w: Window) {
    w.id in revisions ==> revisions[w.id].1 != w
  }

  predicate ValidIds(windows: seq<Window>) {
    forall w :: w in windows ==> 1 <= w.id <= MAX_WINDOW_ID
  }

  /** A row for each window that differs from its archived revision, numbered one higher. */
  function WindowRows(run: Option<string>, revisions: map<int, (nat, Window)>, windows: seq<Window>)
    : seq<WindowRow>
  {
    if windows == [] then []
    else
      var w := windows[|windows| - 1];
      WindowRows(run, revisions, windows[..|windows| - 1])
      + (if Changed(revisions, w) then [WindowRow(run, Revision(revisions, w.id) + 1, w)] else [])
  }

  function TextLength(texts: seq<string>): nat {
    if texts == [] then 0 else TextLength(texts[..|texts| - 1]) + |texts[|texts| - 1]|
  }

  function WindowBytes(rows: seq<WindowRow>): nat {
    if rows == [] then 0
    else
      var w := rows[|rows| - 1].window;
      WindowBytes(rows[..|rows| - 1]) + TextLength(w.triggers) + TextLength(w.samples) + 1
  }

  function Updated(revisions: map<int, (nat, Window)>, rows: seq<WindowRow>): map<int, (nat, Window)> {
    if rows == [] then revisions
    else
      var row := rows[|rows| - 1];
      Updated(revisions, rows[..|rows| - 1])[row.window.id := (row.revision, row.window)]
  }

  function ForWindowRun(a: Archive, run: Option<string>): Archive {
    if run == a.windowRun then a else a.(windowRun := run, revisions := map[])
  }

  function ArchiveWindows(a: Archive, p: Posted, fails: bool): (Archive, bool) {
    var b := ForWindowRun(a, p.run);
    if !ValidIds(p.report.windows) then (b, false)
    else
      var rows := WindowRows(p.run, b.revisions, p.report.windows);
      if b.bytes + WindowBytes(rows) > ARCHIVE_LIMIT then (b, false)
      else if rows == [] then (b, true)
      else if fails then (b, false)
      else
        (b.(windowFile := b.windowFile + rows, revisions := Updated(b.revisions, rows),
            bytes := b.bytes + WindowBytes(rows)), true)
  }

  // ----- a whole save -----

  function ArchiveFinal(a: Archive, p: Posted, fails: bool): (Archive, bool) {
    if !p.terminal || p in a.finals then (a, true)
    else if a.bytes + p.size > ARCHIVE_LIMIT || fails then (a, false)
    else (a.(finals := a.finals + {p}, bytes := a.bytes + p.size), true)
  }

  /** The posted report replaces the stored one before its events and windows are archived. */
  function Stored(a: Archive, p: Posted, faults: Faults): (Archive, bool) {
    if !p.valid then (a, false)
    else
      var (b, kept) := ArchiveFinal(a, p, faults.final);
      if !kept || faults.latest then (b, false) else (b.(latest := Some(p)), true)
  }

  /** The checkpoint line is appended between the two; without it nothing more is archived. */
  function Save(a: Archive, p: Posted, faults: Faults): (Archive, bool) {
    var (b, stored) := Stored(a, p, faults);
    if !stored || faults.checkpoint then (b, false)
    else
      var (c, eventsKept) := ArchiveEvents(b, p, faults.events);
      if !eventsKept then (c, false) else ArchiveWindows(c, p, faults.windows)
  }

  datatype Attempt = Attempt(post: Posted, faults: Faults)

  function SaveAll(a: Archive, attempts: seq<Attempt>): Archive {
    if attempts == [] then a
    else
      var last := attempts[|attempts| - 1];
      Save(SaveAll(a, attempts[..|attempts| - 1]), last.post, last.faults).0
  }

  lemma SaveStaysWithinLimit(a: Archive, p: Posted, faults: Faults)
    requires a.bytes <= ARCHIVE_LIMIT
    ensures Save(a, p, faults).0.bytes <= ARCHIVE_LIMIT
  {}

  /** No run of saves, accepted or not, takes the archive past its limit. */
  lemma {:induction false} BytesStayWithinLimit(a: Archive, attempts: seq<Attempt>)
    requires a.bytes <= ARCHIVE_LIMIT
    ensures SaveAll(a, attempts).bytes <= ARCHIVE_LIMIT
  {
    hide Save;
    if attempts != [] {
      var n := |attempts| - 1;
      BytesStayWithinLimit(a, attempts[..n]);
      SaveStaysWithinLimit(SaveAll(a, attempts[..n]), attempts[n].post, attempts[n].faults);
    }
  }

  // ----- the collector object -----

  class Collector {
    var archiveRun: Option<string>
    var archivedSequence: int
    var archiveMissingEvents: nat
    var archiveBytes: nat
    var windowRun: Option<string>
    var windowRevisions: map<int, (nat, Window)>
    var eventFile: seq<EventRow>
    var windowFile: seq<WindowRow>
    var finals: set<Posted>
    var latest: Option<Posted>

    ghost function State(): Archive
      reads this
    {
      Archive(archiveRun, archivedSequence, archiveMissingEvents, eventFile, windowRun,
              windowRevisions, windowFile, finals, latest, archiveBytes)
    }

    constructor ()
      ensures State() == NEW_ARCHIVE
    {
      archiveRun, archivedSequence, archiveMissingEvents, archiveBytes := None, 0, 0, 0;
      windowRun, windowRevisions := None, map[];
      eventFile, windowFile, finals, latest := [], [], {}, None;
    }

    method SaveReport(p: Posted, faults: Faults) returns (ok: bool)
      modifies this
      ensures (State(), ok) == Save(old(State()), p, faults)
    {
      hide ArchiveFinal, ArchiveEvents, ArchiveWindows;
      if !p.valid {
        return false;
      }
      ok := KeepFinal(p, faults.final);
      if !ok || faults.latest {
        return false;
      }
      latest := Some(p);
      if faults.checkpoint {
        return false;
      }
      ok := KeepEvents(p, faults.events);
      if ok {
        ok := KeepWindows(p, faults.windows);
      }
    }

    method KeepFinal(p: Posted, fails: bool) returns (ok: bool)
      modifies this`finals, this`archiveBytes
      ensures (State(), ok) == ArchiveFinal(old(State()), p, fails)
    {
      if !p.terminal || p in finals {
        return true;
      }
      if archiveBytes + p.size > ARCHIVE_LIMIT || fails {
        return false;
      }
      finals := finals + {p};
      archiveBytes := archiveBytes + p.size;
      ok := true;
    }

    method KeepEvents(p: Posted, fails: bool) returns (ok: bool)
      modifies this`archiveRun, this`archivedSequence, this`archiveMissingEvents, this`archiveBytes,
               this`eventFile
      ensures (State(), ok) == ArchiveEvents(old(State()), p, fails)
    {
      hide NewEvents, Counted, EventBytes;
      if p.run != archiveRun {
        archiveRun := p.run;
        archivedSequence := 0;
        archiveMissingEvents := 0;
      }
      ghost var started := State();
      assert started == ForRun(old(State()), p.run);
      var events := SelectNew(p.report.events, archivedSequence);
      if events == [] {
        return true;
      }
      var rows := EventRows(p.run, events);
      var size := EventBytes(rows);
      if archiveBytes + size > ARCHIVE_LIMIT || fails {
        return false;
      }
      eventFile := eventFile + rows;
      CountRows(rows);
      archiveBytes := archiveBytes + size;
      ok := true;
    }

    method SelectNew(events: seq<Event>, after: int) returns (selected: seq<Event>)
      ensures selected == NewEvents(events, after)
    {
      selected := [];
      var i := 0;
      while i < |events|
        invariant 0 <= i <= |events| && selected == NewEvents(events[..i], after)
      {
        assert events[..i + 1][..i] == events[..i];
        if events[i].sequence.Some? && events[i].sequence.value > after {
          selected := selected + [events[i]];
        }
        i := i + 1;
      }
      assert events[..i] == events;
    }

    method CountRows(rows: seq<EventRow>)
      modifies this`archivedSequence, this`archiveMissingEvents
      ensures (archivedSequence, archiveMissingEvents)
              == Counted(rows, old(archivedSequence), old(archiveMissingEvents))
    {
      var i := 0;
      while i < |rows|
        invariant 0 <= i <= |rows|
        invariant (archivedSequence, archiveMissingEvents)
                  == Counted(rows[..i], old(archivedSequence), old(archiveMissingEvents))
      {
        assert rows[..i + 1][..i] == rows[..i];
        var gap := rows[i].sequence - archivedSequence - 1;
        archiveMissingEvents := archiveMissingEvents + if gap > 0 then gap else 0;
        archivedSequence := rows[i].sequence;
        i := i + 1;
      }
      assert rows[..i] == rows;
    }

    method KeepWindows(p: Posted, fails: bool) returns (ok: bool)
      modifies this`windowRun, this`windowRevisions, this`windowFile, this`archiveBytes
      ensures (State(), ok) == ArchiveWindows(old(State()), p, fails)
    {
      hide WindowRows, Updated, WindowBytes, ValidIds;
      if p.run != windowRun {
        windowRun := p.run;
        windowRevisions := map[];
      }
      ghost var started := State();
      assert started == ForWindowRun(old(State()), p.run);
      var rows, valid := SelectChanged(p.run, p.report.windows);
      if !valid {
        return false;
      }
      var size := WindowBytes(rows);
      if archiveBytes + size > ARCHIVE_LIMIT {
        return false;
      }
      if rows == [] {
        return true;
      }
      if fails {
        return false;
      }
      windowFile := windowFile + rows;
      archiveBytes := archiveBytes + size;
      UpdateRevisions(rows);
      ok := true;
    }

    /** Stops at the first window whose identity is out of range. */
    method SelectChanged(run: Option<string>, windows: seq<Window>)
      returns (rows: seq<WindowRow>, valid: bool)
      ensures valid == ValidIds(windows)
      ensures valid ==> rows == WindowRows(run, windowRevisions, windows)
    {
      rows := [];
      var i := 0;
      while i < |windows|
        invariant 0 <= i <= |windows| && ValidIds(windows[..i])
        invariant rows == WindowRows(run, windowRevisions, windows[..i])
      {
        var w := windows[i];
        assert windows[..i + 1][..i] == windows[..i];
        if !(1 <= w.id <= MAX_WINDOW_ID) {
          assert w in windows;
          return rows, false;
        }
        if Changed(windowRevisions, w) {
          rows := rows + [WindowRow(run, Revision(windowRevisions, w.id) + 1, w)];
        }
        i := i + 1;
      }
      assert windows[..i] == windows;
      valid := true;
    }

    method UpdateRevisions(rows: seq<WindowRow>)
      modifies this`windowRevisions
      ensures windowRevisions == Updated(old(windowRevisions), rows)
    {
      var i := 0;
      while i < |rows|
        invariant 0 <= i <= |rows| && windowRevisions == Updated(old(windowRevisions), rows[..i])
      {
        assert rows[..i + 1][..i] == rows[..i];
        windowRevisions := windowRevisions[rows[i].window.id := (rows[i].revision, rows[i].window)];
        i := i + 1;
      }
      assert rows[..i] == rows;
    }
  }
}
