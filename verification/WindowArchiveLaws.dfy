/** The incident-window archive of `benchmarks/receiver_checkpoint.py`: the summary recovers from
    the file exactly the revisions the collector holds. */
module WindowArchiveLaws {
  import opened Options
  import opened BrowserReport
  import opened Collector
  import opened ReceiverSummary

  /** How many revisions of a window the file holds for a run, and the content of the last. */
  function Latest(file: seq<WindowRow>, run: Option<string>, id: int): (nat, Option<Window>) {
    if file == [] then (0, None)
    else
      var row := file[|file| - 1];
      var before := Latest(file[..|file| - 1], run, id);
      if row.run == run && row.window.id == id then (before.0 + 1, Some(row.window)) else before
  }

  /** Each row of the run is the next revision of its window, and differs from the one before. */
  ghost predicate Numbered(file: seq<WindowRow>, run: Option<string>) {
    forall j :: 0 <= j < |file| && file[j].run == run ==>
      file[j].revision == Latest(file[..j], run, file[j].window.id).0 + 1
      && Latest(file[..j], run, file[j].window.id).1 != Some(file[j].window)
  }

  function Held(revisions: map<int, (nat, Window)>, id: int): (nat, Option<Window>) {
    if id in revisions then (revisions[id].0, Some(revisions[id].1)) else (0, None)
  }

  /** What the collector holds for the run is what the file says. */
  ghost predicate WindowsOk(a: Archive, run: Option<string>) {
    Numbered(a.windowFile, run)
    && (forall id :: Latest(a.windowFile, run, id)
                     == if a.windowRun == run then Held(a.revisions, id) else (0, None))
  }

  /** The highest-revision merge of the file is the latest archived content of every window. */
  lemma {:induction false} MergeIsLatest(file: seq<WindowRow>, run: Option<string>, id: int)
    requires Numbered(file, run)
    ensures Held(HighestRevisions(file, run), id) == Latest(file, run, id)
  {
    if file != [] {
      var n := |file| - 1;
      PrefixIsNumbered(file, n, run);
      MergeIsLatest(file[..n], run, id);
      MergeIsLatest(file[..n], run, file[n].window.id);
    }
  }

  lemma PrefixIsNumbered(file: seq<WindowRow>, n: nat, run: Option<string>)
    requires Numbered(file, run) && n <= |file|
    ensures Numbered(file[..n], run)
  {
    forall j | 0 <= j < n ensures file[..n][..j] == file[..j] {}
  }

  /** So the summary's merge is exactly the collector's own record of the run. */
  lemma MergeIsCollectorRecord(a: Archive, id: int)
    requires WindowsOk(a, a.windowRun)
    ensures Held(HighestRevisions(a.windowFile, a.windowRun), id) == Held(a.revisions, id)
  {
    MergeIsLatest(a.windowFile, a.windowRun, id);
  }

  // ----- one save -----

  ghost predicate DistinctIds(windows: seq<Window>) {
    forall i, j :: 0 <= i < j < |windows| ==> windows[i].id != windows[j].id
  }

  /** The rows a save adds: one for each changed window, with its next revision. */
  ghost predicate NextRevisions(rows: seq<WindowRow>, run: Option<string>, revisions: map<int, (nat, Window)>) {
    (forall i :: 0 <= i < |rows| ==>
       rows[i].run == run && rows[i].revision == Revision(revisions, rows[i].window.id) + 1
       && Changed(revisions, rows[i].window))
    && (forall i, j :: 0 <= i < j < |rows| ==> rows[i].window.id != rows[j].window.id)
  }

  lemma {:induction false} WindowRowsAreNext(run: Option<string>, revisions: map<int, (nat, Window)>,
                                             windows: seq<Window>)
    requires DistinctIds(windows)
    ensures var rows := WindowRows(run, revisions, windows);
            NextRevisions(rows, run, revisions)
            && forall i :: 0 <= i < |rows| ==> rows[i].window in windows
  {
    if windows != [] {
      var n := |windows| - 1;
      WindowRowsAreNext(run, revisions, windows[..n]);
      OneMoreNext(WindowRows(run, revisions, windows[..n]), run, revisions, windows);
    }
  }

  lemma OneMoreNext(before: seq<WindowRow>, run: Option<string>, revisions: map<int, (nat, Window)>,
                    windows: seq<Window>)
    requires windows != [] && DistinctIds(windows) && NextRevisions(before, run, revisions)
    requires forall i :: 0 <= i < |before| ==> before[i].window in windows[..|windows| - 1]
    ensures var w := windows[|windows| - 1];
            var rows := before + if Changed(revisions, w)
                                 then [WindowRow(run, Revision(revisions, w.id) + 1, w)] else [];
            NextRevisions(rows, run, revisions)
            && forall i :: 0 <= i < |rows| ==> rows[i].window in windows
  {
    hide Changed, Revision;
    var n := |windows| - 1;
    forall i | 0 <= i < |before| ensures before[i].window in windows && before[i].window.id != windows[n].id {
      var k :| 0 <= k < n && windows[..n][k] == before[i].window;
      assert windows[k].id != windows[n].id;
    }
  }

  lemma {:induction false} AppendKeepsWindows(file: seq<WindowRow>, rows: seq<WindowRow>,
                                              run: Option<string>, revisions: map<int, (nat, Window)>)
    requires Numbered(file, run) && NextRevisions(rows, run, revisions)
    requires forall id :: Latest(file, run, id) == Held(revisions, id)
    ensures Numbered(file + rows, run)
    ensures forall id :: Latest(file + rows, run, id) == Held(Updated(revisions, rows), id)
  {
    hide Numbered, Latest;
    if rows == [] {
      assert file + rows == file;
    } else {
      var n := |rows| - 1;
      var row := rows[n];
      AppendKeepsWindows(file, rows[..n], run, revisions);
      UpdatedElsewhere(revisions, rows[..n], row.window.id);
      OneMoreRow(file + rows[..n], row, run);
      assert file + rows == (file + rows[..n]) + [row];
      UpdatedStep(revisions, rows);
    }
  }

  lemma UpdatedStep(revisions: map<int, (nat, Window)>, rows: seq<WindowRow>)
    requires rows != []
    ensures var n := |rows| - 1;
            forall id :: Held(Updated(revisions, rows), id)
                         == if id == rows[n].window.id then (rows[n].revision, Some(rows[n].window))
                            else Held(Updated(revisions, rows[..n]), id)
  {}

  lemma {:induction false} UpdatedElsewhere(revisions: map<int, (nat, Window)>, rows: seq<WindowRow>, id: int)
    requires forall i :: 0 <= i < |rows| ==> rows[i].window.id != id
    ensures Held(Updated(revisions, rows), id) == Held(revisions, id)
  {
    if rows != [] {
      UpdatedElsewhere(revisions, rows[..|rows| - 1], id);
    }
  }

  lemma OneMoreRow(file: seq<WindowRow>, row: WindowRow, run: Option<string>)
    requires Numbered(file, run) && row.run == run
    requires row.revision == Latest(file, run, row.window.id).0 + 1
    requires Latest(file, run, row.window.id).1 != Some(row.window)
    ensures Numbered(file + [row], run)
    ensures forall id :: Latest(file + [row], run, id)
                         == if id == row.window.id then (row.revision, Some(row.window))
                            else Latest(file, run, id)
  {
    StillNumbered(file, row, run);
    assert (file + [row])[..|file|] == file;
  }

  lemma StillNumbered(file: seq<WindowRow>, row: WindowRow, run: Option<string>)
    requires Numbered(file, run)
    requires row.revision == Latest(file, run, row.window.id).0 + 1
    requires Latest(file, run, row.window.id).1 != Some(row.window)
    ensures Numbered(file + [row], run)
  {
    hide Latest;
    var longer := file + [row];
    assert longer[..|file|] == file;
    forall j | 0 <= j < |longer| && longer[j].run == run
      ensures longer[j].revision == Latest(longer[..j], run, longer[j].window.id).0 + 1
              && Latest(longer[..j], run, longer[j].window.id).1 != Some(longer[j].window)
    {
      if j < |file| {
        assert longer[..j] == file[..j];
      }
    }
  }

  /** The archive holds nothing of this run yet. */
  ghost predicate Unseen(a: Archive, run: Option<string>) {
    (forall j :: 0 <= j < |a.windowFile| ==> a.windowFile[j].run != run)
    && (a.windowRun == run ==> forall id :: id !in a.revisions)
  }

  /** Over every sequence of saves of one run, accepted or refused at any point, the file numbers
      each window's revisions 1, 2, ... with no two neighbours alike, and the summary recovers from
      it exactly the collector's record. */
  lemma {:induction false} RunKeepsWindows(a: Archive, attempts: seq<Attempt>, run: Option<string>)
    requires Unseen(a, run)
    requires forall i :: 0 <= i < |attempts| ==>
               attempts[i].post.run == run && DistinctIds(attempts[i].post.report.windows)
    ensures WindowsOk(SaveAll(a, attempts), run)
    ensures forall id :: Held(HighestRevisions(SaveAll(a, attempts).windowFile, run), id)
                         == Latest(SaveAll(a, attempts).windowFile, run, id)
  {
    hide Save, WindowsOk, Latest, HighestRevisions;
    var n := |attempts| - 1;
    if attempts == [] {
      StartIsOk(a, run);
    } else {
      RunKeepsWindows(a, attempts[..n], run);
      WholeSaveKeepsWindows(SaveAll(a, attempts[..n]), attempts[n].post, attempts[n].faults);
    }
    FileIsNumbered(SaveAll(a, attempts), run);
    forall id
      ensures Held(HighestRevisions(SaveAll(a, attempts).windowFile, run), id)
              == Latest(SaveAll(a, attempts).windowFile, run, id)
    {
      MergeIsLatest(SaveAll(a, attempts).windowFile, run, id);
    }
  }

  /** The windows of a well-formed report have distinct identities. */
  lemma ReportsHaveDistinctIds(r: Report)
    requires ReportOk(r)
    ensures DistinctIds(r.windows)
  {
    hide ReportOk;
    forall i: nat, j: nat | i < j < |r.windows| ensures r.windows[i].id != r.windows[j].id {
      WindowIdsAreDistinct(r, i, j);
    }
  }

  /** So for every sequence of saves of reports that the browser can make. */
  lemma ReportsKeepWindows(a: Archive, attempts: seq<Attempt>, run: Option<string>)
    requires Unseen(a, run)
    requires forall i :: 0 <= i < |attempts| ==> attempts[i].post.run == run && ReportOk(attempts[i].post.report)
    ensures Numbered(SaveAll(a, attempts).windowFile, run)
    ensures forall id :: Held(HighestRevisions(SaveAll(a, attempts).windowFile, run), id)
                         == Latest(SaveAll(a, attempts).windowFile, run, id)
  {
    hide ReportOk, DistinctIds, Unseen, SaveAll, HighestRevisions, Latest, Numbered, Held;
    forall i | 0 <= i < |attempts| ensures DistinctIds(attempts[i].post.report.windows) {
      ReportsHaveDistinctIds(attempts[i].post.report);
    }
    RunKeepsWindows(a, attempts, run);
    FileIsNumbered(SaveAll(a, attempts), run);
  }

  lemma FileIsNumbered(a: Archive, run: Option<string>)
    requires WindowsOk(a, run)
    ensures Numbered(a.windowFile, run)
  {}

  lemma StartIsOk(a: Archive, run: Option<string>)
    requires Unseen(a, run)
    ensures WindowsOk(a, run)
  {
    UnseenIsOk(a.windowFile, run);
  }

  lemma WholeSaveKeepsWindows(a: Archive, p: Posted, faults: Faults)
    requires WindowsOk(a, p.run) && DistinctIds(p.report.windows)
    ensures WindowsOk(Save(a, p, faults).0, p.run)
  {
    hide ArchiveWindows, Numbered, Latest, Held;
    var (b, stored) := Stored(a, p, faults);
    var (c, eventsKept) := ArchiveEvents(b, p, faults.events);
    if stored && !faults.checkpoint && eventsKept {
      SaveKeepsWindows(c, p, faults.windows);
    }
  }

  lemma {:induction false} UnseenIsOk(file: seq<WindowRow>, run: Option<string>)
    requires forall j :: 0 <= j < |file| ==> file[j].run != run
    ensures Numbered(file, run) && forall id :: Latest(file, run, id) == (0, None)
  {
    if file != [] {
      UnseenIsOk(file[..|file| - 1], run);
    }
  }

  /** Every save of the run, accepted or not, keeps file and record in step; a refused one changes
      no revision; an accepted one leaves every reported window as the latest content. */
  lemma SaveKeepsWindows(a: Archive, p: Posted, fails: bool)
    requires WindowsOk(a, p.run) && DistinctIds(p.report.windows)
    ensures var (after, ok) := ArchiveWindows(a, p, fails);
            WindowsOk(after, p.run) && after.windowRun == p.run
            && (!ok ==> after.windowFile == a.windowFile
                        && (a.windowRun == p.run ==> after.revisions == a.revisions))
            && (ok ==> forall i :: 0 <= i < |p.report.windows| ==>
                         Held(after.revisions, p.report.windows[i].id).1 == Some(p.report.windows[i]))
  {
    var b := ForWindowRun(a, p.run);
    var rows := WindowRows(p.run, b.revisions, p.report.windows);
    WindowRowsAreNext(p.run, b.revisions, p.report.windows);
    AppendKeepsWindows(b.windowFile, rows, p.run, b.revisions);
    var (after, ok) := ArchiveWindows(a, p, fails);
    if ok {
      forall i | 0 <= i < |p.report.windows|
        ensures Held(after.revisions, p.report.windows[i].id).1 == Some(p.report.windows[i])
      {
        ReportedIsHeld(p.run, b.revisions, p.report.windows, i);
      }
    }
  }

  lemma {:induction false} ReportedIsHeld(run: Option<string>, revisions: map<int, (nat, Window)>,
                                          windows: seq<Window>, at: nat)
    requires at < |windows| && DistinctIds(windows)
    ensures var w := windows[at];
            Held(Updated(revisions, WindowRows(run, revisions, windows)), w.id).1 == Some(w)
  {
    hide Updated, WindowRows;
    var n := |windows| - 1;
    WindowRowsStep(run, revisions, windows, windows[at].id);
    if at == n {
      UntouchedIsHeld(run, revisions, windows[..n], windows[n].id);
    } else {
      ReportedIsHeld(run, revisions, windows[..n], at);
    }
  }

  lemma WindowRowsStep(run: Option<string>, revisions: map<int, (nat, Window)>, windows: seq<Window>, id: int)
    requires windows != []
    ensures var w := windows[|windows| - 1];
            var before := Updated(revisions, WindowRows(run, revisions, windows[..|windows| - 1]));
            Held(Updated(revisions, WindowRows(run, revisions, windows)), id)
            == if Changed(revisions, w) && w.id == id then (Revision(revisions, id) + 1, Some(w))
               else Held(before, id)
  {
    hide Revision, Changed;
    var w := windows[|windows| - 1];
    var before := WindowRows(run, revisions, windows[..|windows| - 1]);
    if Changed(revisions, w) {
      LastRowUpdates(revisions, before, WindowRow(run, Revision(revisions, w.id) + 1, w), id);
    } else {
      assert before + [] == before;
    }
  }

  lemma LastRowUpdates(revisions: map<int, (nat, Window)>, rows: seq<WindowRow>, row: WindowRow, id: int)
    ensures Held(Updated(revisions, rows + [row]), id)
            == if row.window.id == id then (row.revision, Some(row.window))
               else Held(Updated(revisions, rows), id)
  {
    assert (rows + [row])[..|rows|] == rows;
  }

  lemma {:induction false} UntouchedIsHeld(run: Option<string>, revisions: map<int, (nat, Window)>,
                                           windows: seq<Window>, id: int)
    requires forall i :: 0 <= i < |windows| ==> windows[i].id != id
    ensures Held(Updated(revisions, WindowRows(run, revisions, windows)), id) == Held(revisions, id)
    decreases |windows|, 1
  {
    if windows == [] {
    } else {
      StillUntouched(run, revisions, windows, id);
    }
  }

  lemma {:induction false} StillUntouched(run: Option<string>, revisions: map<int, (nat, Window)>,
                                          windows: seq<Window>, id: int)
    requires windows != [] && forall i :: 0 <= i < |windows| ==> windows[i].id != id
    ensures Held(Updated(revisions, WindowRows(run, revisions, windows)), id) == Held(revisions, id)
    decreases |windows|, 0
  {
    hide Updated, WindowRows, Changed;
    WindowRowsStep(run, revisions, windows, id);
    UntouchedIsHeld(run, revisions, windows[..|windows| - 1], id);
  }
}
