/** Which saves of `benchmarks/receiver_checkpoint.py` keep what. */
module SaveLaws {
  import opened Options
  import opened BrowserReport
  import opened Collector
  import EventArchive
  import EventHistory

  // ----- terminal reports -----

  /** A save that keeps a terminal report if it is not kept already. */
  predicate KeepsFinal(a: Archive, attempt: Attempt, q: Posted) {
    attempt.post == q && q.valid && q.terminal && !attempt.faults.final && a.bytes + q.size <= ARCHIVE_LIMIT
  }

  lemma FinalsStep(a: Archive, attempt: Attempt, q: Posted)
    ensures q in Save(a, attempt.post, attempt.faults).0.finals <==> q in a.finals || KeepsFinal(a, attempt, q)
  {
    hide ArchiveEvents, ArchiveWindows;
    var (b, stored) := Stored(a, attempt.post, attempt.faults);
    if stored {
      EventsKeepFinals(b, attempt.post, attempt.faults.events);
      WindowsKeepFinals(ArchiveEvents(b, attempt.post, attempt.faults.events).0, attempt.post, attempt.faults.windows);
    }
  }

  lemma EventsKeepFinals(a: Archive, p: Posted, fails: bool)
    ensures ArchiveEvents(a, p, fails).0.finals == a.finals
  {}

  lemma WindowsKeepFinals(a: Archive, p: Posted, fails: bool)
    ensures ArchiveWindows(a, p, fails).0.finals == a.finals
  {}

  /** Over every run of saves: the terminal reports kept are exactly those of the saves that could keep them,
      whatever was posted before or after and whatever else of the save failed. */
  lemma {:induction false} FinalsExactly(a: Archive, attempts: seq<Attempt>, q: Posted)
    ensures q in SaveAll(a, attempts).finals
            <==> q in a.finals
                 || exists i :: 0 <= i < |attempts| && KeepsFinal(SaveAll(a, attempts[..i]), attempts[i], q)
  {
    hide Save, KeepsFinal;
    if attempts != [] {
      var n := |attempts| - 1;
      var before := attempts[..n];
      FinalsExactly(a, before, q);
      FinalsStep(SaveAll(a, before), attempts[n], q);
      forall i | 0 <= i < n ensures before[..i] == attempts[..i] && before[i] == attempts[i] {}
    }
  }

  // ----- the stored report -----

  /** The posted report replaces the stored one exactly if it is well formed, its terminal copy is kept if it
      needs one, and the write succeeds. */
  lemma StoredExactly(a: Archive, p: Posted, faults: Faults)
    ensures var after := Save(a, p, faults).0;
            var kept := p.valid && !faults.latest
                            && (p.terminal ==> p in a.finals || (!faults.final && a.bytes + p.size <= ARCHIVE_LIMIT));
            after.latest == if kept then Some(p) else a.latest
  {
    hide ArchiveEvents, ArchiveWindows;
    EventHistory.SaveParts(a, p, faults);
  }

  // ----- a save without faults -----

  const NO_FAULTS := Faults(false, false, false, false, false)

  /** A row for every window, as if all had changed. */
  function EveryWindow(run: Option<string>, revisions: map<int, (nat, Window)>, windows: seq<Window>): seq<WindowRow> {
    if windows == [] then []
    else
      var w := windows[|windows| - 1];
      EveryWindow(run, revisions, windows[..|windows| - 1]) + [WindowRow(run, Revision(revisions, w.id) + 1, w)]
  }

  /** What a report adds to the archive if all of it is new. */
  function MostBytes(p: Posted): nat {
    p.size + EventBytes(EventRows(p.run, p.report.events)) + WindowBytes(EveryWindow(p.run, map[], p.report.windows))
  }

  lemma OneMoreEvent(run: Option<string>, events: seq<Event>, e: Event)
    ensures EventBytes(EventRows(run, events + [e])) == EventBytes(EventRows(run, events)) + |e.detail| + 1
  {
    assert EventRows(run, events + [e])[..|events|] == EventRows(run, events);
  }

  lemma OneMoreWindow(rows: seq<WindowRow>, row: WindowRow)
    ensures WindowBytes(rows + [row])
            == WindowBytes(rows) + TextLength(row.window.triggers) + TextLength(row.window.samples) + 1
  {
    assert (rows + [row])[..|rows + [row]| - 1] == rows;
  }

  lemma {:induction false} FewerEvents(run: Option<string>, events: seq<Event>, after: int)
    ensures EventBytes(EventRows(run, NewEvents(events, after))) <= EventBytes(EventRows(run, events))
  {
    hide EventBytes, EventRows;
    if events == [] {
      assert NewEvents(events, after) == events;
    } else {
      var n := |events| - 1;
      FewerEvents(run, events[..n], after);
      assert NewEvents(events[..n], after) + [] == NewEvents(events[..n], after);
      OneMoreEvent(run, events[..n], events[n]);
      OneMoreEvent(run, NewEvents(events[..n], after), events[n]);
      assert events[..n] + [events[n]] == events;
    }
  }

  lemma {:induction false} FewerWindows(run: Option<string>, revisions: map<int, (nat, Window)>, windows: seq<Window>)
    ensures WindowBytes(WindowRows(run, revisions, windows)) <= WindowBytes(EveryWindow(run, map[], windows))
  {
    if windows != [] {
      var before, w := windows[..|windows| - 1], windows[|windows| - 1];
      FewerWindows(run, revisions, before);
      OneMoreWindow(EveryWindow(run, map[], before), WindowRow(run, Revision(map[], w.id) + 1, w));
      OneMoreWindow(WindowRows(run, revisions, before), WindowRow(run, Revision(revisions, w.id) + 1, w));
      assert WindowRows(run, revisions, before) + [] == WindowRows(run, revisions, before);
    }
  }

  lemma EventsAreKept(a: Archive, p: Posted)
    requires a.bytes + EventBytes(EventRows(p.run, p.report.events)) <= ARCHIVE_LIMIT
    ensures ArchiveEvents(a, p, false).1
            && ArchiveEvents(a, p, false).0.bytes <= a.bytes + EventBytes(EventRows(p.run, p.report.events))
  {
    hide EventBytes, NewEvents, Counted;
    FewerEvents(p.run, p.report.events, ForRun(a, p.run).archivedSequence);
  }

  lemma WindowsAreKept(a: Archive, p: Posted)
    requires a.bytes + WindowBytes(EveryWindow(p.run, map[], p.report.windows)) <= ARCHIVE_LIMIT
    ensures ArchiveWindows(a, p, false).1 == ValidIds(p.report.windows)
  {
    hide WindowBytes, WindowRows, EveryWindow, Updated;
    FewerWindows(p.run, ForWindowRun(a, p.run).revisions, p.report.windows);
  }

  /** A save that meets no write failure and has room is refused only for a report that is malformed or has a
      window out of range; an accepted one leaves the report stored, and every event of it archived. */
  lemma HealthySave(a: Archive, p: Posted)
    requires a.bytes + MostBytes(p) <= ARCHIVE_LIMIT
    ensures var (after, ok) := Save(a, p, NO_FAULTS);
            ok == (p.valid && ValidIds(p.report.windows))
            && (ok ==> after.latest == Some(p) && (p.terminal ==> p in after.finals))
            && (ok && EventArchive.FileOk(a, p.run) && ReportOk(p.report)
                ==> EventArchive.Archived(after, p.run)
                    == EventArchive.Max(EventArchive.Archived(a, p.run), p.report.lastSequence))
  {
    hide ArchiveEvents, ArchiveWindows, EventBytes, WindowBytes, EveryWindow, ReportOk, EventArchive.FileOk,
         ValidIds;
    if p.valid {
      var b := Stored(a, p, NO_FAULTS).0;
      EventsAreKept(b, p);
      WindowsAreKept(ArchiveEvents(b, p, false).0, p);
      FinalsStep(a, Attempt(p, NO_FAULTS), p);
      StoredExactly(a, p, NO_FAULTS);
      if EventArchive.FileOk(a, p.run) && ReportOk(p.report) {
        SameFile(a, b, p);
        EventArchive.SaveAddsTheRest(b, p, false);
        WindowsKeepCounts(ArchiveEvents(b, p, false).0, p);
      }
    }
  }

  lemma SameFile(a: Archive, b: Archive, p: Posted)
    requires EventArchive.FileOk(a, p.run) && b == Stored(a, p, NO_FAULTS).0
    ensures EventArchive.FileOk(b, p.run) && EventArchive.Archived(b, p.run) == EventArchive.Archived(a, p.run)
  {
    hide EventArchive.CountsAgree, EventArchive.Numbers;
  }

  lemma WindowsKeepCounts(a: Archive, p: Posted)
    ensures EventArchive.Archived(ArchiveWindows(a, p, false).0, p.run) == EventArchive.Archived(a, p.run)
  {}

  // ----- what counts against the limit -----

  ghost function SizeOf(finals: set<Posted>): nat {
    if finals == {} then 0
    else
      var p :| p in finals;
      p.size + SizeOf(finals - {p})
  }

  lemma {:induction false} SizeWithout(finals: set<Posted>, q: Posted)
    requires q in finals
    ensures SizeOf(finals) == q.size + SizeOf(finals - {q})
  {
    var p :| p in finals && SizeOf(finals) == p.size + SizeOf(finals - {p});
    if p != q {
      SizeWithout(finals - {p}, q);
      SizeWithout(finals - {q}, p);
      assert finals - {p} - {q} == finals - {q} - {p};
    }
  }

  lemma {:induction false} EventBytesAppend(file: seq<EventRow>, rows: seq<EventRow>)
    ensures EventBytes(file + rows) == EventBytes(file) + EventBytes(rows)
  {
    if rows == [] {
      assert file + rows == file;
    } else {
      EventBytesAppend(file, rows[..|rows| - 1]);
      assert (file + rows)[..|file + rows| - 1] == file + rows[..|rows| - 1];
    }
  }

  lemma {:induction false} WindowBytesAppend(file: seq<WindowRow>, rows: seq<WindowRow>)
    ensures WindowBytes(file + rows) == WindowBytes(file) + WindowBytes(rows)
  {
    hide TextLength;
    if rows == [] {
      assert file + rows == file;
    } else {
      WindowBytesAppend(file, rows[..|rows| - 1]);
      assert (file + rows)[..|file + rows| - 1] == file + rows[..|rows| - 1];
    }
  }

  /** The bytes counted are those of both files and of every terminal report. */
  ghost predicate BytesOk(a: Archive) {
    a.bytes == EventBytes(a.eventFile) + WindowBytes(a.windowFile) + SizeOf(a.finals)
  }

  lemma FinalKeepsBytes(a: Archive, p: Posted, fails: bool)
    requires BytesOk(a)
    ensures BytesOk(ArchiveFinal(a, p, fails).0)
  {
    hide EventBytes, WindowBytes, SizeOf;
    if p !in a.finals {
      SizeWithout(a.finals + {p}, p);
      assert a.finals + {p} - {p} == a.finals;
    }
  }

  lemma EventsKeepBytes(a: Archive, p: Posted, fails: bool)
    requires BytesOk(a)
    ensures BytesOk(ArchiveEvents(a, p, fails).0)
  {
    hide EventBytes, WindowBytes, SizeOf, NewEvents, Counted;
    var rows := EventRows(p.run, NewEvents(p.report.events, ForRun(a, p.run).archivedSequence));
    EventBytesAppend(a.eventFile, rows);
  }

  lemma WindowsKeepBytes(a: Archive, p: Posted, fails: bool)
    requires BytesOk(a)
    ensures BytesOk(ArchiveWindows(a, p, fails).0)
  {
    hide EventBytes, WindowBytes, SizeOf, WindowRows, Updated, ValidIds;
    WindowBytesAppend(a.windowFile, WindowRows(p.run, ForWindowRun(a, p.run).revisions, p.report.windows));
  }

  lemma SaveKeepsBytes(a: Archive, p: Posted, faults: Faults)
    requires BytesOk(a)
    ensures BytesOk(Save(a, p, faults).0)
  {
    hide ArchiveFinal, ArchiveEvents, ArchiveWindows, EventBytes, WindowBytes, SizeOf;
    FinalKeepsBytes(a, p, faults.final);
    var b := Stored(a, p, faults).0;
    EventsKeepBytes(b, p, faults.events);
    WindowsKeepBytes(ArchiveEvents(b, p, faults.events).0, p, faults.windows);
  }

  /** In every run of saves the bytes counted against the limit are exactly those kept: of the event rows, of the
      window rows, and of the terminal reports, each once. */
  lemma {:induction false} BytesAreTheFiles(attempts: seq<Attempt>)
    ensures BytesOk(SaveAll(NEW_ARCHIVE, attempts))
  {
    hide Save, BytesOk;
    if attempts == [] {
      NothingKept();
    } else {
      var n := |attempts| - 1;
      BytesAreTheFiles(attempts[..n]);
      SaveKeepsBytes(SaveAll(NEW_ARCHIVE, attempts[..n]), attempts[n].post, attempts[n].faults);
    }
  }

  lemma NothingKept()
    ensures BytesOk(NEW_ARCHIVE)
  {}
}
