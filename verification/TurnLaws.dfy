/** What a turn's end does to the queue, in `src/session.rs`, when the player accepts the next update. */
module TurnLaws {
  import opened Options
  import opened Playback
  import opened QueueLaws
  import opened Transport
  import TransportLaws

  /** The player accepts the first update asked of it. */
  predicate Accepts(replies: seq<Reply>) {
    replies != [] && replies[0].accepted
  }

  lemma AcceptedStart(t: State, replies: seq<Reply>)
    requires Accepts(replies)
    ensures t.StartCurrent(replies, false).0.queue == t.queue
    ensures t.StartCurrent(replies, false).0.generation == t.generation + 1
  {}

  lemma FinishTrackEnds(t: State, cause: Cause, replies: seq<Reply>)
    requires Accepts(replies) && t.queue.current.Some? && |t.queue.history| <= HISTORY_LIMIT
    ensures Ended(t.queue, t.FinishTrack(cause, replies).queue)
  {
    hide State.StartCurrent, Finish, Ended;
    FinishEnds(t.queue);
    AcceptedStart(t.Advance(cause, Finish(t.queue)), replies);
  }

  lemma FailTrackFails(t: State, cause: Cause, replies: seq<Reply>)
    requires Accepts(replies) && t.queue.current.Some?
    ensures Failed(t.queue, t.FailTrack(cause, replies).queue)
  {
    hide State.StartCurrent, Fail, Failed;
    FailFails(t.queue);
    AcceptedStart(t.Advance(cause, Fail(t.queue)), replies);
  }

  /** An event of the current generation ends the turn naturally exactly for the reason "finished", fails
      it for a failed load, an exception or a stuck track, and otherwise leaves the queue alone. */
  lemma EventsEndTurns(t: State, event: TrackEvent, replies: seq<Reply>)
    requires Accepts(replies) && t.queue.current.Some? && |t.queue.history| <= HISTORY_LIMIT
    requires event.generation == Some(t.generation)
    ensures var after := t.Backend(event, replies).queue;
            if event.kind == TrackEnd("finished") then Ended(t.queue, after)
            else if event.kind == TrackEnd("loadFailed") || event.kind.TrackException? || event.kind.TrackStuck?
            then Failed(t.queue, after)
            else after == t.queue
  {
    hide State.FinishTrack, State.FailTrack, Ended, Failed;
    FinishTrackEnds(t, FinishedEvent, replies);
    FailTrackFails(t, FailedEvent, replies);
  }

  /** The player's snapshot records that this generation ended, and why. */
  predicate Records(t: State, s: Snapshot) {
    s.generation != Some(t.generation) && s.trackIsNull && s.terminalGeneration == Some(t.generation)
  }

  /** A check that gives the track up ends the turn naturally exactly if the player's record says
      "finished", and fails it otherwise; a check that does not give it up leaves the queue alone. */
  lemma ChecksEndTurns(t: State, ready: bool, tookMs: nat, answer: Option<Snapshot>, replies: seq<Reply>)
    requires Accepts(replies) && |t.queue.history| <= HISTORY_LIMIT
    ensures var after := t.CheckPlayback(ready, tookMs, answer, replies).queue;
            if !TransportLaws.GivesUp(t, ready, tookMs, answer) then after == t.queue
            else if answer.Some? && Records(t, answer.value) && answer.value.terminalReason == Some("finished")
            then Ended(t.queue, after)
            else Failed(t.queue, after)
  {
    hide State.FinishTrack, State.FailTrack, Ended, Failed, State.ScheduleEnd;
    if t.queue.current.Some? {
      var asked := t.(watchdogRetry := t.now + RETRY_MS).Elapse(tookMs);
      var retried := asked.(endDeadline := Some(asked.now + RETRY_MS));
      FailTrackFails(retried, WatchdogUnverified, replies);
      if answer.Some? {
        var seen := asked.ObserveProgress(answer.value);
        FailTrackFails(seen, WatchdogStalled, replies);
        FinishTrackEnds(asked, WatchdogFinished, replies);
        FailTrackFails(asked, WatchdogFailed, replies);
      }
    }
  }

  /** A check that leaves the track alone asks again no sooner than 5 s later. A player that has this generation
      puts the expected end of a finite track off; any other, or none, is given 5 s. */
  lemma ChecksPutOff(t: State, ready: bool, tookMs: nat, answer: Option<Snapshot>, replies: seq<Reply>)
    requires t.WatchdogDue(ready) && !TransportLaws.GivesUp(t, ready, tookMs, answer)
    ensures var after := t.CheckPlayback(ready, tookMs, answer, replies);
            var track := t.queue.current.value;
            after.watchdogRetry == t.now + 5_000 && after.now == t.now + tookMs
            && after.generation == t.generation
            && (if answer.Some? && answer.value.generation == Some(t.generation)
                then !track.stream && track.durationMs > 0 ==>
                       after.endDeadline == Some(after.now + Minus(track.durationMs, after.positionMs) + 15_000)
                else after.endDeadline == Some(after.now + 5_000))
  {
    hide State.FinishTrack, State.FailTrack, State.RecoverPlayback;
    if answer.Some? {
      AnswersPutOff(t.(watchdogRetry := t.now + RETRY_MS).Elapse(tookMs), answer.value, replies);
    }
  }

  /** The player's answer does not end the turn. */
  predicate Bears(t: State, s: Snapshot) {
    if s.generation == Some(t.generation)
    then s.paused || (s.position.Some? && s.position.value > t.positionMs) || t.SinceProgress() < STALL_MS
    else !Records(t, s) && t.SinceProgress() < UNVERIFIED_STALL_MS
  }

  lemma AnswersPutOff(t: State, s: Snapshot, replies: seq<Reply>)
    requires t.queue.current.Some? && !t.paused && Bears(t, s)
    ensures var after := t.RecoverPlayback(s, replies);
            var track := t.queue.current.value;
            after.watchdogRetry == t.watchdogRetry && after.now == t.now && after.generation == t.generation
            && (if s.generation == Some(t.generation)
                then !track.stream && track.durationMs > 0 ==>
                       after.endDeadline == Some(after.now + Minus(track.durationMs, after.positionMs) + 15_000)
                else after.endDeadline == Some(after.now + 5_000))
  {
    hide State.FinishTrack, State.FailTrack, State.ObserveProgress;
    ReportsKeep(t, s);
  }

  lemma ReportsKeep(t: State, s: Snapshot)
    ensures var seen := t.ObserveProgress(s);
            seen.queue == t.queue && seen.generation == t.generation && seen.now == t.now && seen.paused == t.paused
            && seen.watchdogRetry == t.watchdogRetry
    ensures s.generation == Some(t.generation) && s.position.Some? && s.position.value > t.positionMs
            ==> t.ObserveProgress(s).SinceProgress() == 0
    ensures t.ObserveProgress(s).SinceProgress() <= t.SinceProgress()
  {}

  // ----- pausing -----

  /** Once a pause is accepted, the position stays what it was at that moment, however long it lasts. */
  lemma PauseFreezes(t: State, reply: Reply, ms: nat)
    requires t.queue.current.Some? && !t.paused && reply.accepted
    ensures var paused := t.TogglePause(true, reply);
            paused.paused && paused.queue == t.queue && paused.endDeadline.None?
            && paused.Elapse(ms).Position() == t.Elapse(reply.tookMs).Position()
  {}

  /** And once a resumption is accepted, it goes on from there. */
  lemma ResumeGoesOn(t: State, reply: Reply, ms: nat)
    requires t.queue.current.Some? && t.paused && reply.accepted
    ensures var resumed := t.TogglePause(false, reply);
            !resumed.paused && resumed.queue == t.queue
            && resumed.Elapse(ms).Position() == t.Position() + if t.started then ms else 0
  {}

  /** A pause that is refused changes nothing but the time. */
  lemma RefusedPauseChangesNothing(t: State, pause: bool, reply: Reply)
    requires !reply.accepted
    ensures t.TogglePause(pause, reply).(now := t.now) == t
  {}

  // ----- signs of life -----

  /** From its start event on, a track's position advances with time, and a finite track should end once it has
      passed; a second start event changes nothing. */
  lemma StartRuns(t: State, replies: seq<Reply>, ms: nat)
    requires t.queue.current.Some? && !t.started && !t.paused
    ensures var event := TrackEvent(TrackStart, Some(t.generation));
            var after := t.Backend(event, replies);
            after.started && after.queue == t.queue && after.SinceProgress() == 0
            && after.Elapse(ms).Position() == t.positionMs + ms
            && (var track := t.queue.current.value;
                !track.stream && track.durationMs > 0 ==>
                  after.endDeadline == Some(t.now + Minus(track.durationMs, t.positionMs) + 15_000))
            && after.Elapse(ms).Backend(event, replies) == after.Elapse(ms)
  {}

  /** A progress report of this generation tells whether the player is connected and where it is; only one that is
      further than those before counts as progress. */
  lemma ReportsTell(t: State, s: Snapshot)
    requires s.generation == Some(t.generation) && s.position.Some?
    ensures var after := t.ObserveProgress(s);
            after.connected == s.connected && after.queue == t.queue && after.generation == t.generation
            && after.Position() == (if s.position.value > t.positionMs then s.position.value else t.positionMs)
            && after.progressAt == (if s.position.value > t.positionMs then t.now else t.progressAt)
  {}

  /** Any other report changes nothing. */
  lemma OtherReportsTellNothing(t: State, s: Snapshot)
    requires s.generation != Some(t.generation) || s.position.None?
    ensures t.ObserveProgress(s) == t
  {}
}
