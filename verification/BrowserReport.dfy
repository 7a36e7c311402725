/** The receiver report that `benchmarks/browser_endurance.js` keeps while an observation runs: a
    bounded ring of numbered events and a bounded list of numbered incident windows. */
module BrowserReport {
  import opened Options

  const EVENT_CAP: nat := 4096
  const WINDOW_CAP: nat := 256
  const TRIGGER_CAP: nat := 8
  const HISTORY_CAP: nat := 6
  const SAMPLES_AFTER: nat := 5

  /** An event of a report: its sequence number, if it has one, and the rest of it. */
  datatype Event = Event(sequence: Option<int>, detail: string)

  datatype Window = Window(id: int, triggers: seq<string>, samples: seq<string>, remaining: nat)

  datatype Report = Report(
    events: seq<Event>, eventsDropped: nat, eventsTruncated: bool, lastSequence: nat,
    windows: seq<Window>, windowsDropped: nat, windowsCreated: nat, history: seq<string>)

  const NEW_REPORT := Report([], 0, false, 0, [], 0, 0, [])

  // ----- what each step does to the report's value -----

  function Recorded(r: Report, detail: string): Report {
    var full := |r.events| >= EVENT_CAP;
    r.(events := (if full then r.events[1..] else r.events) + [Event(Some(r.lastSequence + 1), detail)],
       eventsDropped := r.eventsDropped + if full then 1 else 0,
       eventsTruncated := r.eventsTruncated || full,
       lastSequence := r.lastSequence + 1)
  }

  /** An incident joins the window that is still open, or opens a new one. */
  function Triggered(r: Report, detail: string): Report {
    var n := |r.windows|;
    if n > 0 && r.windows[n - 1].remaining > 0 then
      var open := r.windows[n - 1];
      if |open.triggers| >= TRIGGER_CAP then r
      else r.(windows := r.windows[n - 1 := open.(triggers := open.triggers + [detail])])
    else
      var full := n >= WINDOW_CAP;
      r.(windows := (if full then r.windows[1..] else r.windows)
                    + [Window(r.windowsCreated + 1, [detail], r.history, SAMPLES_AFTER)],
         windowsDropped := r.windowsDropped + if full then 1 else 0,
         windowsCreated := r.windowsCreated + 1)
  }

  function Happened(r: Report, detail: string, incident: bool): Report {
    if incident then Triggered(Recorded(r, detail), detail) else Recorded(r, detail)
  }

  function AddSample(w: Window, sample: string): Window {
    if w.remaining > 0 then w.(samples := w.samples + [sample], remaining := w.remaining - 1) else w
  }

  /** One poll: open windows gain a sample, and the recent history moves on. */
  function Polled(r: Report, sample: string): Report {
    var longer := r.history + [sample];
    r.(windows := seq(|r.windows|, i requires 0 <= i < |r.windows| => AddSample(r.windows[i], sample)),
       history := if |longer| > HISTORY_CAP then longer[1..] else longer)
  }

  // ----- what always holds -----

  /** The events retained are the newest ones, numbered without a gap, and the others are counted
      as dropped; likewise the windows. */
  ghost predicate ReportOk(r: Report) {
    |r.events| <= EVENT_CAP && |r.windows| <= WINDOW_CAP && |r.history| <= HISTORY_CAP
    && r.eventsDropped + |r.events| == r.lastSequence
    && (r.eventsTruncated <==> r.eventsDropped > 0)
    && (r.eventsDropped > 0 ==> |r.events| == EVENT_CAP)
    && (forall i :: 0 <= i < |r.events| ==> r.events[i].sequence == Some(r.eventsDropped + 1 + i))
    && r.windowsDropped + |r.windows| == r.windowsCreated
    && (forall i :: 0 <= i < |r.windows| ==> r.windows[i].id == r.windowsDropped + 1 + i)
  }

  lemma HappenedKeepsReport(r: Report, detail: string, incident: bool)
    requires ReportOk(r)
    ensures ReportOk(Happened(r, detail, incident))
  {
    RecordedKeepsReport(r, detail);
    TriggeredKeepsReport(Recorded(r, detail), detail);
  }

  lemma RecordedKeepsReport(r: Report, detail: string)
    requires ReportOk(r)
    ensures ReportOk(Recorded(r, detail))
  {}

  lemma TriggeredKeepsReport(r: Report, detail: string)
    requires ReportOk(r)
    ensures ReportOk(Triggered(r, detail))
  {}

  lemma PolledKeepsReport(r: Report, sample: string)
    requires ReportOk(r)
    ensures ReportOk(Polled(r, sample))
  {}

  /** The identities of one report's windows are distinct. */
  lemma WindowIdsAreDistinct(r: Report, i: nat, j: nat)
    requires ReportOk(r) && i < j < |r.windows|
    ensures r.windows[i].id != r.windows[j].id
  {}

  // ----- the report object -----

  class Observation {
    var events: seq<Event>
    var eventsDropped: nat
    var eventsTruncated: bool
    var eventSequence: nat
    var windows: seq<Window>
    var windowsDropped: nat
    var windowsCreated: nat
    var history: seq<string>

    function State(): Report
      reads this
    {
      Report(events, eventsDropped, eventsTruncated, eventSequence, windows, windowsDropped,
             windowsCreated, history)
    }

    constructor ()
      ensures State() == NEW_REPORT
    {
      events, eventsDropped, eventsTruncated, eventSequence := [], 0, false, 0;
      windows, windowsDropped, windowsCreated, history := [], 0, 0, [];
    }

    /** `incident` says whether this kind of event, at this moment, opens an incident window. */
    method Record(detail: string, incident: bool)
      modifies this
      ensures State() == Happened(old(State()), detail, incident)
    {
      if |events| >= EVENT_CAP {
        eventsTruncated := true;
        eventsDropped := eventsDropped + 1;
        events := events[1..];
      }
      eventSequence := eventSequence + 1;
      events := events + [Event(Some(eventSequence), detail)];
      assert State() == Recorded(old(State()), detail);
      if incident {
        Trigger(detail);
      }
    }

    method Trigger(detail: string)
      modifies this`windows, this`windowsDropped, this`windowsCreated
      ensures State() == Triggered(old(State()), detail)
    {
      var n := |windows|;
      if n > 0 && windows[n - 1].remaining > 0 {
        if |windows[n - 1].triggers| < TRIGGER_CAP {
          windows := windows[n - 1 := windows[n - 1].(triggers := windows[n - 1].triggers + [detail])];
        }
      } else {
        if n >= WINDOW_CAP {
          windows := windows[1..];
          windowsDropped := windowsDropped + 1;
        }
        windowsCreated := windowsCreated + 1;
        windows := windows + [Window(windowsCreated, [detail], history, SAMPLES_AFTER)];
      }
    }

    method Poll(sample: string)
      modifies this`windows, this`history
      ensures State() == Polled(old(State()), sample)
    {
      var i := 0;
      while i < |windows|
        invariant 0 <= i <= |windows| == |old(windows)| && history == old(history)
        invariant forall k :: 0 <= k < i ==> windows[k] == AddSample(old(windows[k]), sample)
        invariant forall k :: i <= k < |windows| ==> windows[k] == old(windows[k])
      {
        windows := windows[i := AddSample(windows[i], sample)];
        i := i + 1;
      }
      history := history + [sample];
      if |history| > HISTORY_CAP {
        history := history[1..];
      }
      assert windows == Polled(old(State()), sample).windows;
    }
  }
}
