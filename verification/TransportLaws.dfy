/** Safety of the playback half of `src/session.rs`: bounded starts, at most one advance per
    generation, and a watchdog that acts only on silence. */
module TransportLaws {
  import opened Options
  import opened Playback
  import opened QueueLaws
  import opened Transport

  // ----- starting ends, and its answer means what it says -----

  function UpdateCount(log: seq<Fact>): nat {
    if log == [] then 0
    else UpdateCount(log[..|log| - 1]) + if log[|log| - 1].Updated? then 1 else 0
  }

  lemma UpdateCountStep(log: seq<Fact>, f: Fact)
    ensures UpdateCount(log + [f]) == UpdateCount(log) + if f.Updated? then 1 else 0
  {
    assert (log + [f])[..|log|] == log;
  }

  /** At most four player updates; failure leaves an empty queue; success means that the last
      update was accepted and was for the current track, or for silence. */
  lemma {:induction false} StartIsBounded(t: State, replies: seq<Reply>, failed: bool, maxTracks: nat)
    requires QueueOk(t.queue, maxTracks)
    ensures var (after, ok) := t.StartCurrent(replies, failed);
            QueueOk(after.queue, maxTracks)
            && UpdateCount(after.log) <= UpdateCount(t.log) + 1 + t.StartsLeft()
            && t.StartsLeft() <= 3
            && (!ok ==> after.queue.Len() == 0)
            && (ok ==> after.log != []
                       && after.log[|after.log| - 1] == Updated(after.generation, after.queue.current, true))
            && !after.started && !after.paused && after.positionMs == 0
            && after.generation > t.generation
    decreases t.StartsLeft()
  {
    hide Fail, State.Begin;
    var begun := t.Begin();
    var reply := if replies == [] then Reply(false, 0) else replies[0];
    var told := begun.Told(reply);
    UpdateCountStep(t.log, Sign(t.generation + 1, t.now));
    UpdateCountStep(begun.log, Updated(begun.generation, t.queue.current, reply.accepted));
    if !reply.accepted && t.queue.current.Some? {
      ApplyKeepsQueueOk(t.queue, DoFail, maxTracks);
      FailUsesOneStart(t.queue, maxTracks);
      var next := told.Advance(StartRefused, Fail(t.queue));
      UpdateCountStep(told.log, Advanced(told.generation, StartRefused, told.now));
      StartIsBounded(next, Later(replies), true, maxTracks);
    }
  }

  lemma FailUsesOneStart(q: QueueState, maxTracks: nat)
    requires QueueOk(q, maxTracks) && q.current.Some?
    ensures Fail(q).current.None? || Fail(q).failures == q.failures + 1 < FAILURE_LIMIT
  {}

  // ----- the log -----

  /** Advances are in strictly increasing generations, all below `bound`. */
  ghost predicate AdvancesOnce(log: seq<Fact>, bound: nat) {
    (forall i, j :: 0 <= i < j < |log| && log[i].Advanced? && log[j].Advanced?
                    ==> log[i].generation < log[j].generation)
    && forall f :: f in log && f.Advanced? ==> f.generation < bound
  }

  /** How long the generation must have been silent for this cause. */
  function Silence(cause: Cause): nat {
    if cause.WatchdogStalled? then STALL_MS
    else if cause.WatchdogUnverified? then UNVERIFIED_STALL_MS
    else 0
  }

  /** A watchdog advance without a terminal record comes after that much silence. */
  ghost predicate SilentBeforeWatchdog(log: seq<Fact>) {
    forall f, g :: f in log && g in log && f.Advanced? && Silence(f.cause) > 0
                   && g.Sign? && g.generation == f.generation
                   ==> g.at + Silence(f.cause) <= f.at
  }

  ghost predicate SignsSeen(log: seq<Fact>, generation: nat, progressAt: nat) {
    forall f :: f in log && f.Sign? ==>
      f.generation <= generation && (f.generation == generation ==> f.at <= progressAt)
  }

  ghost predicate LogOk(t: State, bound: nat) {
    AdvancesOnce(t.log, bound) && SilentBeforeWatchdog(t.log)
    && SignsSeen(t.log, t.generation, t.progressAt) && t.progressAt <= t.now
  }

  lemma NoteSign(t: State, bound: nat, generation: nat, at: nat)
    requires LogOk(t, bound)
    requires forall f :: f in t.log && f.Advanced? ==> f.generation < generation
    ensures AdvancesOnce(t.Note(Sign(generation, at)).log, bound)
    ensures SilentBeforeWatchdog(t.Note(Sign(generation, at)).log)
  {}

  lemma BeginKeepsLog(t: State)
    requires LogOk(t, t.generation + 1)
    ensures LogOk(t.Begin(), t.generation + 1)
  {
    hide State.ScheduleEnd;
    NoteSign(t, t.generation + 1, t.generation + 1, t.now);
  }

  lemma ToldKeepsLog(t: State, bound: nat, reply: Reply)
    requires LogOk(t, bound)
    ensures LogOk(t.Told(reply), bound)
  {}

  lemma AdvanceKeepsLog(t: State, cause: Cause, queue': QueueState)
    requires LogOk(t, t.generation)
    requires t.SinceProgress() >= Silence(cause)
    ensures LogOk(t.Advance(cause, queue'), t.generation + 1)
  {
    hide Silence;
    var f := Advanced(t.generation, cause, t.now);
    assert t.Advance(cause, queue').log == t.log + [f];
  }

  lemma {:induction false} StartKeepsLog(t: State, replies: seq<Reply>, failed: bool)
    requires LogOk(t, t.generation + 1)
    ensures var (after, _) := t.StartCurrent(replies, failed);
            LogOk(after, after.generation) && t.generation < after.generation && t.log <= after.log
            && t.now <= after.now
    decreases t.StartsLeft()
  {
    hide Fail, State.Begin, LogOk;
    var reply := if replies == [] then Reply(false, 0) else replies[0];
    var told := t.Begin().Told(reply);
    BeginKeepsLog(t);
    ToldKeepsLog(t.Begin(), t.generation + 1, reply);
    IdleIsNotLogged(told, Some(told.now));
    IdleIsNotLogged(told, None);
    if !reply.accepted && t.queue.current.Some? {
      FewerStarts(t, told.Advance(StartRefused, Fail(t.queue)));
      AdvanceKeepsLog(told, StartRefused, Fail(t.queue));
      StartKeepsLog(told.Advance(StartRefused, Fail(t.queue)), Later(replies), true);
    }
  }

  lemma IdleIsNotLogged(t: State, idleAt: Option<nat>)
    ensures forall bound :: LogOk(t, bound) ==> LogOk(t.(idleAt := idleAt), bound)
  {}

  lemma FewerStarts(t: State, next: State)
    requires t.queue.current.Some? && next.queue == Fail(t.queue)
    ensures next.StartsLeft() < t.StartsLeft()
  {}

  // ----- what may move the queue on -----

  /** The advances logged between two states: refused starts, and otherwise only one of `causes`
      in the generation that was playing before. */
  ghost predicate OnlyAdvances(before: State, after: State, causes: set<Cause>) {
    before.log <= after.log
    && forall i :: |before.log| <= i < |after.log| && after.log[i].Advanced? ==>
         after.log[i].cause.StartRefused?
         || (after.log[i].cause in causes && after.log[i].generation == before.generation)
  }

  lemma {:induction false} StartOnlyRefuses(t: State, replies: seq<Reply>, failed: bool)
    ensures OnlyAdvances(t, t.StartCurrent(replies, failed).0, {})
    decreases t.StartsLeft()
  {
    hide Fail, State.Begin;
    var reply := if replies == [] then Reply(false, 0) else replies[0];
    var told := t.Begin().Told(reply);
    if !reply.accepted && t.queue.current.Some? {
      var next := told.Advance(StartRefused, Fail(t.queue));
      FewerStarts(t, next);
      StartOnlyRefuses(next, Later(replies), true);
    }
  }

  lemma AdvanceThenStart(t: State, cause: Cause, queue': QueueState, replies: seq<Reply>)
    ensures OnlyAdvances(t, t.Advance(cause, queue').StartCurrent(replies, false).0, {cause})
  {
    hide State.StartCurrent;
    var moved := t.Advance(cause, queue');
    StartOnlyRefuses(moved, replies, false);
    var after := moved.StartCurrent(replies, false).0;
    forall i | |t.log| <= i < |after.log| && after.log[i].Advanced?
      ensures after.log[i].cause.StartRefused?
              || (after.log[i].cause in {cause} && after.log[i].generation == t.generation)
    {
      if i == |t.log| {
        assert after.log[i] == moved.log[i];
      }
    }
  }

  /** What one operation keeps, and what it may have advanced for. */
  ghost predicate Sound(t: State, after: State, causes: set<Cause>, maxTracks: nat) {
    LogOk(after, after.generation) && QueueOk(after.queue, maxTracks)
    && t.generation <= after.generation && t.now <= after.now
    && OnlyAdvances(t, after, causes)
  }

  ghost predicate StateOk(t: State, maxTracks: nat) {
    LogOk(t, t.generation) && QueueOk(t.queue, maxTracks)
  }

  lemma StartIsSound(t: State, replies: seq<Reply>, failed: bool, maxTracks: nat)
    requires LogOk(t, t.generation + 1) && QueueOk(t.queue, maxTracks)
    ensures Sound(t, t.StartCurrent(replies, failed).0, {}, maxTracks)
  {
    hide State.StartCurrent, LogOk, QueueOk, OnlyAdvances;
    StartKeepsLog(t, replies, failed);
    StartOnlyRefuses(t, replies, failed);
    StartIsBounded(t, replies, failed, maxTracks);
  }

  lemma MoveIsSound(t: State, cause: Cause, queue': QueueState, replies: seq<Reply>, maxTracks: nat)
    requires LogOk(t, t.generation) && t.SinceProgress() >= Silence(cause)
    requires QueueOk(queue', maxTracks)
    ensures var after := t.Advance(cause, queue').StartCurrent(replies, false).0;
            Sound(t, after, {cause}, maxTracks) && t.generation < after.generation
  {
    hide State.StartCurrent, LogOk, QueueOk, OnlyAdvances, Silence;
    var moved := t.Advance(cause, queue');
    AdvanceKeepsLog(t, cause, queue');
    StartKeepsLog(moved, replies, false);
    StartIsBounded(moved, replies, false, maxTracks);
    AdvanceThenStart(t, cause, queue', replies);
  }

  lemma FinishIsSound(t: State, cause: Cause, replies: seq<Reply>, maxTracks: nat)
    requires StateOk(t, maxTracks) && Silence(cause) == 0
    ensures Sound(t, t.FinishTrack(cause, replies), {cause}, maxTracks)
    ensures t.generation < t.FinishTrack(cause, replies).generation
  {
    ApplyKeepsQueueOk(t.queue, DoFinish, maxTracks);
    hide State.StartCurrent, LogOk, QueueOk, Sound, Finish, Silence, State.SinceProgress;
    MoveIsSound(t, cause, Finish(t.queue), replies, maxTracks);
  }

  lemma FailIsSound(t: State, cause: Cause, replies: seq<Reply>, maxTracks: nat)
    requires StateOk(t, maxTracks) && t.SinceProgress() >= Silence(cause)
    ensures Sound(t, t.FailTrack(cause, replies), {cause}, maxTracks)
    ensures t.generation < t.FailTrack(cause, replies).generation
  {
    ApplyKeepsQueueOk(t.queue, DoFail, maxTracks);
    hide State.StartCurrent, LogOk, QueueOk, Sound, Fail, Silence, State.SinceProgress;
    MoveIsSound(t, cause, Fail(t.queue), replies, maxTracks);
  }

  /** A sign of life: the log grows by it and no time passes. */
  lemma SignIsSound(t: State, maxTracks: nat)
    requires StateOk(t, maxTracks)
    ensures StateOk(t.(progressAt := t.now).Note(Sign(t.generation, t.now)), maxTracks)
    ensures OnlyAdvances(t, t.Note(Sign(t.generation, t.now)), {})
  {
    NoteSign(t, t.generation, t.generation, t.now);
  }

  /** Changing anything but generation, clocks, queue and log is sound. */
  lemma SameLogIsSound(t: State, after: State, maxTracks: nat)
    requires StateOk(t, maxTracks)
    requires (after.generation, after.progressAt, after.queue, after.log)
             == (t.generation, t.progressAt, t.queue, t.log)
    requires t.now <= after.now
    ensures Sound(t, after, {}, maxTracks) && StateOk(after, maxTracks)
  {}

  // ----- backend events -----

  /** The causes an event can be evidence for. */
  function EventCauses(t: State, event: TrackEvent): set<Cause> {
    if t.queue.current.None? || event.generation != Some(t.generation) then {}
    else if event.kind == TrackEnd(FINISHED) then {FinishedEvent}
    else if event.kind == TrackEnd(LOAD_FAILED) || event.kind.TrackException? || event.kind.TrackStuck?
    then {FailedEvent}
    else {}
  }

  lemma BackendIsSound(t: State, event: TrackEvent, replies: seq<Reply>, maxTracks: nat)
    requires StateOk(t, maxTracks)
    ensures Sound(t, t.Backend(event, replies), EventCauses(t, event), maxTracks)
    ensures EventCauses(t, event) != {} ==> t.generation < t.Backend(event, replies).generation
  {
    hide LogOk, QueueOk, Finish, Fail, State.FinishTrack, State.FailTrack;
    if t.queue.current.Some? && event.generation == Some(t.generation) {
      match event.kind
      case TrackStart =>
        SignIsSound(t, maxTracks);
        StartedIsSound(t, maxTracks);
      case TrackEnd(reason) =>
        if reason == FINISHED {
          FinishIsSound(t, FinishedEvent, replies, maxTracks);
        } else if reason == LOAD_FAILED {
          FailIsSound(t, FailedEvent, replies, maxTracks);
        } else {
          SameLogIsSound(t, t, maxTracks);
        }
      case TrackException => FailIsSound(t, FailedEvent, replies, maxTracks);
      case TrackStuck => FailIsSound(t, FailedEvent, replies, maxTracks);
      case OtherKind => SameLogIsSound(t, t, maxTracks);
    } else {
      SameLogIsSound(t, t, maxTracks);
    }
  }

  lemma StartedIsSound(t: State, maxTracks: nat)
    requires StateOk(t, maxTracks)
    ensures Sound(t, t.TrackStarted(), {}, maxTracks)
  {
    hide LogOk, QueueOk;
    if t.started {
      SameLogIsSound(t, t, maxTracks);
    } else {
      SignIsSound(t, maxTracks);
      var signed := t.(progressAt := t.now).Note(Sign(t.generation, t.now));
      SameLogIsSound(signed, t.TrackStarted(), maxTracks);
    }
  }

  /** An event delivered twice does what it does once, however the second update would go. */
  lemma BackendIsIdempotent(t: State, event: TrackEvent, first: seq<Reply>, second: seq<Reply>)
    ensures t.Backend(event, first).Backend(event, second) == t.Backend(event, first)
  {
    hide Finish, Fail, State.Begin;
    StartAdvancesGeneration(t.Advance(FinishedEvent, Finish(t.queue)), first);
    StartAdvancesGeneration(t.Advance(FailedEvent, Fail(t.queue)), first);
  }

  lemma {:induction false} StartAdvancesGeneration(t: State, replies: seq<Reply>)
    ensures forall failed :: t.generation < t.StartCurrent(replies, failed).0.generation
    decreases t.StartsLeft()
  {
    hide Fail, State.Begin;
    var reply := if replies == [] then Reply(false, 0) else replies[0];
    if !reply.accepted && t.queue.current.Some? {
      var next := t.Begin().Told(reply).Advance(StartRefused, Fail(t.queue));
      FewerStarts(t, next);
      StartAdvancesGeneration(next, Later(replies));
    }
  }

  // ----- player updates -----

  lemma ObserveIsSound(t: State, snapshot: Snapshot, maxTracks: nat)
    requires StateOk(t, maxTracks)
    ensures Sound(t, t.ObserveProgress(snapshot), {}, maxTracks)
    ensures StateOk(t.ObserveProgress(snapshot), maxTracks)
    ensures t.ObserveProgress(snapshot).generation == t.generation
  {
    hide LogOk, QueueOk;
    var after := t.ObserveProgress(snapshot);
    if after.log == t.log {
      SameLogIsSound(t, after, maxTracks);
    } else {
      SignIsSound(t, maxTracks);
      SameLogIsSound(t.(progressAt := t.now).Note(Sign(t.generation, t.now)), after, maxTracks);
    }
  }

  /** Updates with the time that passes before each. */
  function ObserveAll(t: State, updates: seq<(nat, Snapshot)>): State {
    if updates == [] then t
    else
      var last := updates[|updates| - 1];
      ObserveAll(t, updates[..|updates| - 1]).Elapse(last.0).ObserveProgress(last.1)
  }

  /** The position an update reports for this generation, if any. */
  function Reported(generation: nat, update: (nat, Snapshot)): nat {
    if update.1.generation == Some(generation) && update.1.position.Some?
    then update.1.position.value else 0
  }

  function Furthest(generation: nat, from: nat, updates: seq<(nat, Snapshot)>): nat {
    if updates == [] then from
    else
      var before := Furthest(generation, from, updates[..|updates| - 1]);
      var last := Reported(generation, updates[|updates| - 1]);
      if before < last then last else before
  }

  /** Whatever their order and however stale, updates leave the furthest reported position. */
  lemma {:induction false} PositionIsFurthest(t: State, updates: seq<(nat, Snapshot)>)
    ensures var after := ObserveAll(t, updates);
            after.positionMs == Furthest(t.generation, t.positionMs, updates)
            && after.generation == t.generation && after.queue == t.queue
  {
    hide State.ScheduleEnd;
    if updates != [] {
      PositionIsFurthest(t, updates[..|updates| - 1]);
    }
  }

  /** And that is a property of the set of updates: the least bound of them all. */
  lemma {:induction false} FurthestIsLeastBound(generation: nat, from: nat, updates: seq<(nat, Snapshot)>)
    ensures var p := Furthest(generation, from, updates);
            from <= p && (forall u :: u in updates ==> Reported(generation, u) <= p)
            && (p == from || exists u :: u in updates && Reported(generation, u) == p)
  {
    hide Reported;
    if updates != [] {
      var n := |updates| - 1;
      FurthestIsLeastBound(generation, from, updates[..n]);
      assert updates[n] in updates;
      assert updates == updates[..n] + [updates[n]];
    }
  }

  // ----- the watchdog -----

  /** The causes a watchdog check can find, given the player's answer. */
  function WatchdogCauses(t: State, answer: Option<Snapshot>): set<Cause> {
    if answer.None? then {WatchdogUnverified}
    else
      var s := answer.value;
      if s.generation == Some(t.generation) then if s.paused then {} else {WatchdogStalled}
      else if s.trackIsNull && s.terminalGeneration == Some(t.generation)
      then if s.terminalReason == Some(FINISHED) then {WatchdogFinished} else {WatchdogFailed}
      else {WatchdogUnverified}
  }

  lemma CheckIsSound(t: State, ready: bool, tookMs: nat, answer: Option<Snapshot>,
                     replies: seq<Reply>, maxTracks: nat)
    requires StateOk(t, maxTracks)
    ensures Sound(t, t.CheckPlayback(ready, tookMs, answer, replies), WatchdogCauses(t, answer), maxTracks)
  {
    hide LogOk, QueueOk, State.FinishTrack, State.FailTrack, State.ObserveProgress, OnlyAdvances;
    if !t.WatchdogDue(ready) {
      SameLogIsSound(t, t, maxTracks);
      WidenCauses(t, t, {}, WatchdogCauses(t, answer));
    } else {
      var asked := t.(watchdogRetry := t.now + RETRY_MS).Elapse(tookMs);
      SameLogIsSound(t, asked, maxTracks);
      if answer.None? {
        UnverifiableIsSound(asked, replies, maxTracks);
      } else {
        RecoverIsSound(asked, answer.value, replies, maxTracks);
      }
      Chained(t, asked, t.CheckPlayback(ready, tookMs, answer, replies), WatchdogCauses(t, answer));
    }
  }

  lemma WidenCauses(t: State, after: State, causes: set<Cause>, more: set<Cause>)
    requires OnlyAdvances(t, after, causes) && causes <= more
    ensures OnlyAdvances(t, after, more)
  {}

  lemma Chained(t: State, mid: State, after: State, causes: set<Cause>)
    requires OnlyAdvances(t, mid, {}) && mid.generation == t.generation
    requires OnlyAdvances(mid, after, causes) && mid.log == t.log
    ensures OnlyAdvances(t, after, causes)
  {}

  lemma UnverifiableIsSound(t: State, replies: seq<Reply>, maxTracks: nat)
    requires StateOk(t, maxTracks)
    ensures var retried := t.(endDeadline := Some(t.now + RETRY_MS));
            Sound(t, retried.RecoverUnverifiable(replies), {WatchdogUnverified}, maxTracks)
  {
    hide LogOk, QueueOk, State.FailTrack, OnlyAdvances;
    var retried := t.(endDeadline := Some(t.now + RETRY_MS));
    SameLogIsSound(t, retried, maxTracks);
    if retried.SinceProgress() >= UNVERIFIED_STALL_MS {
      FailIsSound(retried, WatchdogUnverified, replies, maxTracks);
      Chained(t, retried, retried.FailTrack(WatchdogUnverified, replies), {WatchdogUnverified});
    } else {
      WidenCauses(t, retried, {}, {WatchdogUnverified});
    }
  }

  lemma RecoverIsSound(t: State, snapshot: Snapshot, replies: seq<Reply>, maxTracks: nat)
    requires StateOk(t, maxTracks)
    ensures Sound(t, t.RecoverPlayback(snapshot, replies), WatchdogCauses(t, Some(snapshot)), maxTracks)
  {
    hide LogOk, QueueOk, State.FinishTrack, State.FailTrack, OnlyAdvances;
    if snapshot.generation == Some(t.generation) {
      StalledIsSound(t, snapshot, replies, maxTracks);
    } else if snapshot.trackIsNull && snapshot.terminalGeneration == Some(t.generation) {
      if snapshot.terminalReason == Some(FINISHED) {
        FinishIsSound(t, WatchdogFinished, replies, maxTracks);
      } else {
        FailIsSound(t, WatchdogFailed, replies, maxTracks);
      }
    } else {
      UnverifiableIsSound(t, replies, maxTracks);
    }
  }

  lemma StalledIsSound(t: State, snapshot: Snapshot, replies: seq<Reply>, maxTracks: nat)
    requires StateOk(t, maxTracks) && snapshot.generation == Some(t.generation)
    ensures Sound(t, t.RecoverPlayback(snapshot, replies),
                  if snapshot.paused then {} else {WatchdogStalled}, maxTracks)
  {
    hide LogOk, QueueOk, State.FailTrack, State.ObserveProgress, OnlyAdvances;
    var seen := t.ObserveProgress(snapshot);
    var causes := if snapshot.paused then {} else {WatchdogStalled};
    ObserveIsSound(t, snapshot, maxTracks);
    if snapshot.paused || seen.SinceProgress() < STALL_MS {
      SameLogIsSound(seen, seen.ScheduleEnd(), maxTracks);
      Extended(t, seen, seen.ScheduleEnd(), {});
      WidenCauses(t, seen.ScheduleEnd(), {}, causes);
    } else {
      FailIsSound(seen, WatchdogStalled, replies, maxTracks);
      Extended(t, seen, seen.FailTrack(WatchdogStalled, replies), causes);
    }
  }

  lemma Extended(t: State, mid: State, after: State, causes: set<Cause>)
    requires OnlyAdvances(t, mid, {}) && mid.generation == t.generation
    requires OnlyAdvances(mid, after, causes)
    ensures OnlyAdvances(t, after, causes)
  {
    forall i | |t.log| <= i < |after.log| && after.log[i].Advanced?
      ensures after.log[i].cause.StartRefused?
              || (after.log[i].cause in causes && after.log[i].generation == t.generation)
    {
      if i < |mid.log| {
        assert after.log[i] == mid.log[i];
      }
    }
  }

  lemma PauseIsSound(t: State, pause: bool, reply: Reply, maxTracks: nat)
    requires StateOk(t, maxTracks)
    ensures Sound(t, t.TogglePause(pause, reply), {}, maxTracks)
  {
    hide LogOk, QueueOk, OnlyAdvances, State.Position;
    var told := t.Elapse(reply.tookMs);
    SameLogIsSound(t, t, maxTracks);
    SameLogIsSound(t, told, maxTracks);
    if t.queue.current.Some? && pause != t.paused && reply.accepted {
      SignIsSound(told, maxTracks);
      var signed := told.(progressAt := told.now).Note(Sign(told.generation, told.now));
      var after := t.TogglePause(pause, reply);
      SameLogIsSound(signed, after, maxTracks);
      assert OnlyAdvances(told, after, {}) by { SameAdvances(told, after); }
      Extended(t, told, after, {});
    }
  }

  lemma SameAdvances(t: State, after: State)
    requires after.log == t.log + [Sign(t.generation, t.now)]
    ensures OnlyAdvances(t, after, {})
  {}

  /** Exactly when a watchdog check gives the track up: it was due, and the player either ended
      this generation, or has shown no progress for 60 s (90 s where it gives no usable answer). */
  predicate GivesUp(t: State, ready: bool, tookMs: nat, answer: Option<Snapshot>) {
    var silence := Minus(t.now + tookMs, t.progressAt);
    t.queue.current.Some? && !t.paused && ready && t.now >= t.watchdogRetry
    && (t.now >= t.progressAt + STALL_MS || (t.endDeadline.Some? && t.now >= t.endDeadline.value))
    && if answer.None? then silence >= UNVERIFIED_STALL_MS
       else
         var s := answer.value;
         if s.generation == Some(t.generation)
         then !s.paused && silence >= STALL_MS && !(s.position.Some? && s.position.value > t.positionMs)
         else (s.trackIsNull && s.terminalGeneration == Some(t.generation))
              || silence >= UNVERIFIED_STALL_MS
  }

  lemma WatchdogGivesUpExactly(t: State, ready: bool, tookMs: nat, answer: Option<Snapshot>,
                               replies: seq<Reply>)
    ensures t.CheckPlayback(ready, tookMs, answer, replies).generation != t.generation
            <==> GivesUp(t, ready, tookMs, answer)
  {
    hide Finish, Fail, State.StartCurrent, State.ScheduleEnd;
    if t.WatchdogDue(ready) {
      var asked := t.(watchdogRetry := t.now + RETRY_MS).Elapse(tookMs);
      var retried := asked.(endDeadline := Some(asked.now + RETRY_MS));
      StartAdvancesGeneration(retried.Advance(WatchdogUnverified, Fail(t.queue)), replies);
      if answer.Some? {
        var seen := asked.ObserveProgress(answer.value);
        StartAdvancesGeneration(seen.Advance(WatchdogStalled, Fail(t.queue)), replies);
        StartAdvancesGeneration(asked.Advance(WatchdogFinished, Finish(t.queue)), replies);
        StartAdvancesGeneration(asked.Advance(WatchdogFailed, Fail(t.queue)), replies);
      }
    }
  }

  // ----- the end deadline -----

  /** The deadline set while a track plays is past exactly when the track should have been over for
      15 s by its extrapolated position; a paused track, a stream or one of unknown length has none. */
  lemma DeadlineMeansOverrun(t: State, ms: nat)
    requires t.started && t.positionAt == t.now
    ensures var later := t.ScheduleEnd().Elapse(ms);
            (later.endDeadline.Some? && later.endDeadline.value <= later.now)
            <==> !t.paused && t.queue.current.Some?
                 && !t.queue.current.value.stream && t.queue.current.value.durationMs > 0
                 && later.Position() >= END_SLACK_MS + t.positionMs
                 && later.Position() >= END_SLACK_MS + t.queue.current.value.durationMs
  {}
}
