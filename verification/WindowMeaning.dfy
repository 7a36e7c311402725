/** What the windows of a report say of the whole run, in `benchmarks/browser_endurance.js`: a definition
    by the run's history alone, and the proof that the report agrees with it. */
module WindowMeaning {
  import opened Options
  import opened BrowserReport

  /** What happens while an observation runs. */
  datatype Moment = Occurs(detail: string, incident: bool) | Poll(sample: string)

  function ReportOf(run: seq<Moment>): Report {
    if run == [] then NEW_REPORT
    else
      var before := ReportOf(run[..|run| - 1]);
      match run[|run| - 1]
      case Occurs(detail, incident) => Happened(before, detail, incident)
      case Poll(sample) => Polled(before, sample)
  }

  // ----- the history alone -----

  function Polls(run: seq<Moment>): seq<string> {
    if run == [] then []
    else Polls(run[..|run| - 1]) + if run[|run| - 1].Poll? then [run[|run| - 1].sample] else []
  }

  function AtMost<T>(s: seq<T>, n: nat): seq<T> {
    if |s| <= n then s else s[..n]
  }

  function Latest<T>(s: seq<T>, n: nat): seq<T> {
    if |s| <= n then s else s[|s| - n..]
  }

  /** A window opened `since` that moment is still open: it takes the next five polls. */
  predicate StillOpen(since: seq<Moment>) {
    |Polls(since)| < SAMPLES_AFTER
  }

  predicate IsIncident(m: Moment) {
    m.Occurs? && m.incident
  }

  /** Where windows open: at the incidents that find none open. */
  function Openings(run: seq<Moment>): (at: seq<nat>)
    ensures forall k :: 0 <= k < |at| ==> at[k] < |run|
  {
    if run == [] then []
    else
      var n := |run| - 1;
      var before := Openings(run[..n]);
      var open := before != [] && StillOpen(run[before[|before| - 1]..n]);
      before + if IsIncident(run[n]) && !open then [n] else []
  }

  /** The incidents in `since` that find the window open, in order. */
  function Joining(since: seq<Moment>): seq<string> {
    if since == [] then []
    else
      var n := |since| - 1;
      Joining(since[..n]) + if IsIncident(since[n]) && StillOpen(since[..n]) then [since[n].detail] else []
  }

  /** The window opened at `at`: its first eight incidents, and the six polls before and five after. */
  function WindowAt(run: seq<Moment>, at: nat, id: int): Window
    requires at <= |run|
  {
    var since := run[at..];
    var after := AtMost(Polls(since), SAMPLES_AFTER);
    Window(id, AtMost(Joining(since), TRIGGER_CAP), Latest(Polls(run[..at]), HISTORY_CAP) + after,
           SAMPLES_AFTER - |after|)
  }

  // ----- agreement -----

  /** The report holds the newest windows of the history, and its recent polls. */
  ghost predicate Agrees(r: Report, run: seq<Moment>) {
    var at := Openings(run);
    r.windowsCreated == |at| && r.windowsDropped + |r.windows| == |at|
    && |r.windows| <= WINDOW_CAP && (r.windowsDropped > 0 ==> |r.windows| == WINDOW_CAP)
    && (forall i :: 0 <= i < |r.windows| ==>
          r.windows[i] == WindowAt(run, at[r.windowsDropped + i], r.windowsDropped + i + 1))
    && r.history == Latest(Polls(run), HISTORY_CAP)
  }

  /** Every opening but the last has had its five polls. */
  ghost predicate OthersClosed(run: seq<Moment>) {
    var at := Openings(run);
    forall k :: 0 <= k < |at| - 1 ==> !StillOpen(run[at[k]..])
  }

  lemma {:induction false} PollsAppend(a: seq<Moment>, b: seq<Moment>)
    ensures Polls(a + b) == Polls(a) + Polls(b)
  {
    if b == [] {
      assert a + b == a;
    } else {
      PollsAppend(a, b[..|b| - 1]);
      assert (a + b)[..|a + b| - 1] == a + b[..|b| - 1];
    }
  }

  /** What one more moment does to a window of the history. */
  lemma WindowStep(run: seq<Moment>, m: Moment, at: nat, id: int)
    requires at < |run|
    ensures var w := WindowAt(run, at, id);
            WindowAt(run + [m], at, id)
            == if m.Poll? then AddSample(w, m.sample)
               else if IsIncident(m) && w.remaining > 0 && |w.triggers| < TRIGGER_CAP
                    then w.(triggers := w.triggers + [m.detail])
               else w
  {
    var since := run[at..];
    assert (run + [m])[at..] == since + [m];
    assert (run + [m])[..at] == run[..at];
    assert (since + [m])[..|since|] == since;
    PollStep(Polls(since), Latest(Polls(run[..at]), HISTORY_CAP), m);
  }

  lemma PollStep(polls: seq<string>, before: seq<string>, m: Moment)
    ensures m.Poll? ==>
              before + AtMost(polls + [m.sample], SAMPLES_AFTER)
              == (before + AtMost(polls, SAMPLES_AFTER)) + if |polls| < SAMPLES_AFTER then [m.sample] else []
  {}

  /** A window that opens now. */
  lemma WindowOpens(run: seq<Moment>, m: Moment, id: int)
    requires IsIncident(m)
    ensures WindowAt(run + [m], |run|, id)
            == Window(id, [m.detail], Latest(Polls(run), HISTORY_CAP), SAMPLES_AFTER)
  {
    hide Polls, Joining;
    assert (run + [m])[|run|..] == [m] && (run + [m])[..|run|] == run;
    JustOpened(m);
  }

  lemma JustOpened(m: Moment)
    requires IsIncident(m)
    ensures Polls([m]) == [] && Joining([m]) == [m.detail]
  {
    assert [m][..0] == [];
    assert Polls([]) == [];
    assert Joining([]) == [];
  }

  lemma OpeningsStep(run: seq<Moment>, m: Moment)
    ensures var before := Openings(run);
            var open := before != [] && StillOpen(run[before[|before| - 1]..]);
            Openings(run + [m]) == before + if IsIncident(m) && !open then [|run|] else []
  {
    assert (run + [m])[..|run|] == run;
    var before := Openings(run);
    if before != [] {
      assert (run + [m])[before[|before| - 1]..|run|] == run[before[|before| - 1]..];
    }
  }

  lemma {:induction false} OthersAreClosed(run: seq<Moment>)
    ensures OthersClosed(run)
  {
    hide Openings, StillOpen;
    if run == [] {
      NoOpenings();
    } else {
      var n := |run| - 1;
      OthersAreClosed(run[..n]);
      OthersStayClosed(run[..n], run[n]);
      assert run[..n] + [run[n]] == run;
    }
  }

  lemma NoOpenings()
    ensures Openings([]) == []
  {}

  lemma OthersStayClosed(run: seq<Moment>, m: Moment)
    requires OthersClosed(run)
    ensures OthersClosed(run + [m])
  {
    hide Openings, StillOpen;
    OpeningsStep(run, m);
    var at := Openings(run);
    forall k | 0 <= k < |Openings(run + [m])| - 1 ensures !StillOpen((run + [m])[Openings(run + [m])[k]..]) {
      StaysClosed(run, m, at[k]);
    }
  }

  lemma StaysClosed(run: seq<Moment>, m: Moment, at: nat)
    requires at <= |run| && !StillOpen(run[at..])
    ensures !StillOpen((run + [m])[at..])
  {
    assert (run + [m])[at..] == run[at..] + [m];
    PollsAppend(run[at..], [m]);
  }

  lemma LatestStep<T>(s: seq<T>, x: T, n: nat)
    requires n > 0
    ensures var longer := Latest(s, n) + [x];
            Latest(s + [x], n) == if |longer| > n then longer[1..] else longer
  {}

  /** A window is open exactly while it lacks samples. */
  lemma OpenMeansRemaining(run: seq<Moment>, at: nat, id: int)
    requires at <= |run|
    ensures WindowAt(run, at, id).remaining > 0 <==> StillOpen(run[at..])
  {}

  lemma PollAgrees(r: Report, run: seq<Moment>, sample: string)
    requires Agrees(r, run)
    ensures Agrees(Polled(r, sample), run + [Poll(sample)])
  {
    hide Openings, Polls, WindowAt;
    OpeningsStep(run, Poll(sample));
    PollsStep(run, Poll(sample));
    LatestStep(Polls(run), sample, HISTORY_CAP);
    var at := Openings(run);
    forall i | 0 <= i < |r.windows|
      ensures AddSample(r.windows[i], sample)
              == WindowAt(run + [Poll(sample)], at[r.windowsDropped + i], r.windowsDropped + i + 1)
    {
      WindowStep(run, Poll(sample), at[r.windowsDropped + i], r.windowsDropped + i + 1);
    }
  }

  lemma PollsStep(run: seq<Moment>, m: Moment)
    ensures Polls(run + [m]) == Polls(run) + if m.Poll? then [m.sample] else []
  {
    assert (run + [m])[..|run|] == run;
  }

  lemma EventAgrees(r: Report, run: seq<Moment>, detail: string)
    requires Agrees(r, run)
    ensures Agrees(Recorded(r, detail), run + [Occurs(detail, false)])
  {
    hide Openings, Polls, WindowAt;
    var m := Occurs(detail, false);
    OpeningsStep(run, m);
    PollsStep(run, m);
    var at := Openings(run);
    forall i | 0 <= i < |r.windows|
      ensures r.windows[i] == WindowAt(run + [m], at[r.windowsDropped + i], r.windowsDropped + i + 1)
    {
      WindowStep(run, m, at[r.windowsDropped + i], r.windowsDropped + i + 1);
    }
  }

  lemma JoiningAgrees(r: Report, run: seq<Moment>, m: Moment)
    requires Agrees(r, run) && OthersClosed(run) && IsIncident(m)
    requires Openings(run) != [] && StillOpen(run[Openings(run)[|Openings(run)| - 1]..])
    ensures Agrees(Triggered(r, m.detail), run + [m])
  {
    hide Openings, Polls, WindowAt, StillOpen, OthersClosed;
    OpeningsStep(run, m);
    PollsStep(run, m);
    var at := Openings(run);
    OpenMeansRemaining(run, at[|at| - 1], r.windowsDropped + |r.windows|);
    var after := Triggered(r, m.detail);
    forall i | 0 <= i < |r.windows|
      ensures after.windows[i] == WindowAt(run + [m], at[r.windowsDropped + i], r.windowsDropped + i + 1)
    {
      JoinsAt(r, run, m, i);
    }
  }

  lemma JoinsAt(r: Report, run: seq<Moment>, m: Moment, i: nat)
    requires Agrees(r, run) && OthersClosed(run) && IsIncident(m) && i < |r.windows|
    requires r.windows[|r.windows| - 1].remaining > 0
    ensures Triggered(r, m.detail).windows[i]
            == WindowAt(run + [m], Openings(run)[r.windowsDropped + i], r.windowsDropped + i + 1)
  {
    hide Openings, Polls, WindowAt, StillOpen;
    var at := Openings(run)[r.windowsDropped + i];
    WindowStep(run, m, at, r.windowsDropped + i + 1);
    OpenMeansRemaining(run, at, r.windowsDropped + i + 1);
  }

  lemma OpeningAgrees(r: Report, run: seq<Moment>, m: Moment)
    requires Agrees(r, run) && OthersClosed(run) && IsIncident(m)
    requires !(Openings(run) != [] && StillOpen(run[Openings(run)[|Openings(run)| - 1]..]))
    ensures Agrees(Triggered(r, m.detail), run + [m])
  {
    hide Openings, Polls, WindowAt, StillOpen;
    OpeningsStep(run, m);
    PollsStep(run, m);
    var at := Openings(run);
    if r.windows != [] {
      OpenMeansRemaining(run, at[|at| - 1], r.windowsDropped + |r.windows|);
    }
    WindowOpens(run, m, |at| + 1);
    var after := Triggered(r, m.detail);
    var shift := after.windowsDropped - r.windowsDropped;
    forall i | 0 <= i < |after.windows|
      ensures after.windows[i]
              == WindowAt(run + [m], (at + [|run|])[after.windowsDropped + i], after.windowsDropped + i + 1)
    {
      if i < |after.windows| - 1 {
        assert after.windows[i] == r.windows[i + shift];
        WindowStep(run, m, at[r.windowsDropped + i + shift], r.windowsDropped + i + shift + 1);
        OpenMeansRemaining(run, at[r.windowsDropped + i + shift], r.windowsDropped + i + shift + 1);
      }
    }
  }

  lemma RecordedKeepsWindows(r: Report, run: seq<Moment>, detail: string)
    ensures Agrees(r, run) <==> Agrees(Recorded(r, detail), run)
  {
    hide Openings, Polls, WindowAt;
  }

  /** In every run of events and polls, the windows of the report are the newest windows of the history:
      one opens at each incident that finds none open, holds the first eight incidents up to its fifth
      poll, and has for samples the up to six polls before it and the up to five after it. */
  lemma {:induction false} WindowsAreTheHistory(run: seq<Moment>)
    ensures Agrees(ReportOf(run), run)
  {
    hide Agrees, Recorded, Triggered, Polled, Openings, StillOpen, OthersClosed;
    if run == [] {
      NothingAgrees();
    } else {
      var n := |run| - 1;
      var before := ReportOf(run[..n]);
      WindowsAreTheHistory(run[..n]);
      OthersAreClosed(run[..n]);
      assert run[..n] + [run[n]] == run;
      match run[n]
      case Poll(sample) => PollAgrees(before, run[..n], sample);
      case Occurs(detail, incident) =>
        if incident {
          RecordedKeepsWindows(before, run[..n], detail);
          IncidentAgrees(Recorded(before, detail), run[..n], run[n]);
        } else {
          EventAgrees(before, run[..n], detail);
        }
    }
  }

  lemma IncidentAgrees(r: Report, run: seq<Moment>, m: Moment)
    requires Agrees(r, run) && OthersClosed(run) && IsIncident(m)
    ensures Agrees(Triggered(r, m.detail), run + [m])
  {
    hide Agrees, Triggered, Openings, StillOpen, OthersClosed;
    if Openings(run) != [] && StillOpen(run[Openings(run)[|Openings(run)| - 1]..]) {
      JoiningAgrees(r, run, m);
    } else {
      OpeningAgrees(r, run, m);
    }
  }

  lemma NothingAgrees()
    ensures Agrees(NEW_REPORT, [])
  {}

  /** So every window but the last is closed, and each holds one to eight incidents. */
  lemma WindowsAreSound(run: seq<Moment>, i: nat)
    requires i < |ReportOf(run).windows|
    ensures var r := ReportOf(run);
            (i < |r.windows| - 1 ==> r.windows[i].remaining == 0)
            && 1 <= |r.windows[i].triggers| <= TRIGGER_CAP
  {
    hide ReportOf, Openings, StillOpen;
    var r := ReportOf(run);
    var at := Openings(run);
    WindowsAreTheHistory(run);
    OthersAreClosed(run);
    OpenMeansRemaining(run, at[r.windowsDropped + i], r.windowsDropped + i + 1);
    OpeningIsIncident(run, r.windowsDropped + i);
    JoiningStarts(run[at[r.windowsDropped + i]..]);
  }

  lemma {:induction false} OpeningIsIncident(run: seq<Moment>, k: nat)
    requires k < |Openings(run)|
    ensures IsIncident(run[Openings(run)[k]])
  {
    hide StillOpen;
    var n := |run| - 1;
    if k < |Openings(run[..n])| {
      OpeningIsIncident(run[..n], k);
    }
  }

  lemma {:induction false} JoiningStarts(since: seq<Moment>)
    requires since != [] && IsIncident(since[0])
    ensures |Joining(since)| >= 1
  {
    var n := |since| - 1;
    if n > 0 {
      JoiningStarts(since[..n]);
    } else {
      JustOpened(since[0]);
      assert since == [since[0]];
    }
  }
}
