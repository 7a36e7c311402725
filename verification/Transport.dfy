/** The playback half of `GuildSession` in `src/session.rs`: starting tracks, backend events, and
    the progress watchdog, as functions of the session's playback fields. Instants are
    milliseconds of a monotonic clock that only moves by the time awaited. */
module Transport {
  import opened Options
  import opened Playback

  const STALL_MS: nat := 60_000
  const UNVERIFIED_STALL_MS: nat := 90_000
  const END_SLACK_MS: nat := 15_000
  const RETRY_MS: nat := 5_000

  /** What the player answers to one update, and how long it took. */
  datatype Reply = Reply(accepted: bool, tookMs: nat)

  /** Why the queue was moved on. */
  datatype Cause =
    | FinishedEvent       // TrackEndEvent with reason "finished"
    | FailedEvent         // load failure, exception or stuck event
    | WatchdogFinished    // a snapshot's terminal record with reason "finished"
    | WatchdogFailed      // a snapshot's terminal record with another reason
    | WatchdogStalled     // a snapshot of this generation without progress
    | WatchdogUnverified  // no usable snapshot, and no progress
    | StartRefused        // the player refused the update that starts the track
    | Control             // skip, jump or previous

  /** What happened, in order; `Sign` is any reason to believe the generation is alive. */
  datatype Fact =
    | Sign(generation: nat, at: nat)
    | Updated(generation: nat, track: Option<Track>, accepted: bool)
    | Advanced(generation: nat, cause: Cause, at: nat)

  datatype State = State(
    queue: QueueState,
    generation: nat,
    positionMs: nat,
    positionAt: nat,
    progressAt: nat,
    endDeadline: Option<nat>,
    watchdogRetry: nat,
    started: bool,
    paused: bool,
    connected: bool,
    idleAt: Option<nat>,
    now: nat,
    log: seq<Fact>)
  {
    function Elapse(ms: nat): State {
      this.(now := now + ms)
    }

    function Note(fact: Fact): State {
      this.(log := log + [fact])
    }

    function SinceProgress(): nat {
      Minus(now, progressAt)
    }

    /** The extrapolated playing position. */
    function Position(): nat {
      positionMs + if paused || !started then 0 else Minus(now, positionAt)
    }

    function ScheduleEnd(): (t: State)
      ensures t == this.(endDeadline := t.endDeadline)
    {
      this.(endDeadline := EndDeadline(queue.current, positionMs, paused, now))
    }

    // ----- starting -----

    /** A new generation, before the player is told. */
    function Begin(): (t: State)
      ensures t.generation == generation + 1 && t.queue == queue && t.now == now == t.progressAt
      ensures t.log == log + [Sign(generation + 1, now)]
      ensures t.positionMs == 0 && !t.started && !t.paused
    {
      this.(generation := generation + 1, positionMs := 0, positionAt := now, progressAt := now,
            watchdogRetry := now, started := false, paused := false)
          .ScheduleEnd().Note(Sign(generation + 1, now))
    }

    /** How many failed starts are possible before nothing is current. */
    function StartsLeft(): nat {
      if queue.current.None? then 0 else if queue.failures >= 2 then 1 else 3 - queue.failures
    }

    function Told(reply: Reply): State {
      Elapse(reply.tookMs).Note(Updated(generation, queue.current, reply.accepted))
    }

    /** Starts the current track; a refused one fails, and the next is tried. */
    function StartCurrent(replies: seq<Reply>, failed: bool): (State, bool)
      decreases StartsLeft()
    {
      var reply := if replies == [] then Reply(false, 0) else replies[0];
      var told := Begin().Told(reply);
      if reply.accepted then
        (told.(idleAt := if queue.current.None? then Some(told.now) else None),
         !(failed && queue.current.None?))
      else if queue.current.None? then (told.(idleAt := Some(told.now)), false)
      else told.Advance(StartRefused, Fail(queue)).StartCurrent(Later(replies), true)
    }

    function Advance(cause: Cause, queue': QueueState): State {
      Note(Advanced(generation, cause, now)).(queue := queue')
    }

    // ----- moving on -----

    function FinishTrack(cause: Cause, replies: seq<Reply>): State {
      Advance(cause, Finish(queue)).StartCurrent(replies, false).0
    }

    function FailTrack(cause: Cause, replies: seq<Reply>): State {
      Advance(cause, Fail(queue)).StartCurrent(replies, false).0
    }

    // ----- backend events -----

    function ObserveProgress(snapshot: Snapshot): State {
      if snapshot.generation != Some(generation) || snapshot.position.None? then this
      else
        var linked := this.(connected := snapshot.connected);
        (if snapshot.position.value > positionMs
         then linked.(progressAt := now, positionMs := snapshot.position.value)
                    .ScheduleEnd().Note(Sign(generation, now))
         else linked).(positionAt := now)
    }

    function TrackStarted(): State {
      if started then this
      else this.(started := true, positionAt := now, progressAt := now)
               .ScheduleEnd().Note(Sign(generation, now))
    }

    /** The backend messages that concern the playing track. */
    function Backend(event: TrackEvent, replies: seq<Reply>): State {
      if queue.current.None? || event.generation != Some(generation) then this
      else
        match event.kind
        case TrackStart => TrackStarted()
        case TrackEnd(reason) =>
          if reason == FINISHED then FinishTrack(FinishedEvent, replies)
          else if reason == LOAD_FAILED then FailTrack(FailedEvent, replies)
          else this
        case TrackException => FailTrack(FailedEvent, replies)
        case TrackStuck => FailTrack(FailedEvent, replies)
        case OtherKind => this
    }

    // ----- the watchdog -----

    function RecoverUnverifiable(replies: seq<Reply>): State {
      if SinceProgress() >= UNVERIFIED_STALL_MS then FailTrack(WatchdogUnverified, replies) else this
    }

    function RecoverPlayback(snapshot: Snapshot, replies: seq<Reply>): State {
      if snapshot.generation == Some(generation) then
        var seen := ObserveProgress(snapshot);
        if snapshot.paused || seen.SinceProgress() < STALL_MS then seen.ScheduleEnd()
        else seen.FailTrack(WatchdogStalled, replies)
      else if snapshot.trackIsNull && snapshot.terminalGeneration == Some(generation) then
        if snapshot.terminalReason == Some(FINISHED)
        then FinishTrack(WatchdogFinished, replies)
        else FailTrack(WatchdogFailed, replies)
      else this.(endDeadline := Some(now + RETRY_MS)).RecoverUnverifiable(replies)
    }

    /** Whether there is a reason to ask the player what it is doing. */
    predicate WatchdogDue(ready: bool) {
      queue.current.Some? && !paused && ready && now >= watchdogRetry
      && (SinceProgress() >= STALL_MS || (endDeadline.Some? && now >= endDeadline.value))
    }

    /** `answer` is the player's snapshot, or nothing when the request failed or timed out. */
    function CheckPlayback(ready: bool, tookMs: nat, answer: Option<Snapshot>, replies: seq<Reply>)
      : State
    {
      if !WatchdogDue(ready) then this
      else
        var asked := this.(watchdogRetry := now + RETRY_MS).Elapse(tookMs);
        if answer.None?
        then asked.(endDeadline := Some(asked.now + RETRY_MS)).RecoverUnverifiable(replies)
        else asked.RecoverPlayback(answer.value, replies)
    }

    /** Pause or resume, once the player has accepted it. */
    function TogglePause(pause: bool, reply: Reply): State {
      if queue.current.None? || pause == paused then this
      else if !reply.accepted then Elapse(reply.tookMs)
      else
        var told := Elapse(reply.tookMs);
        told.(positionMs := told.Position(), positionAt := told.now, progressAt := told.now,
              paused := pause)
            .ScheduleEnd().Note(Sign(generation, told.now))
    }

    /** The session is left: the player is destroyed and the queue forgotten. */
    function Reset(): State {
      this.(queue := EMPTY_QUEUE, connected := false, idleAt := None, started := false,
            paused := false, endDeadline := None)
    }
  }

  /** When a finite track of known length should have ended, unless it is paused. */
  function EndDeadline(current: Option<Track>, positionMs: nat, paused: bool, now: nat): Option<nat> {
    if current.Some? && !current.value.stream && current.value.durationMs > 0 && !paused
    then Some(now + Minus(current.value.durationMs, positionMs) + END_SLACK_MS)
    else None
  }

  const FINISHED := "finished"
  const LOAD_FAILED := "loadFailed"

  function Later(replies: seq<Reply>): seq<Reply> {
    if replies == [] then [] else replies[1..]
  }

  /** A player update or a player snapshot, as far as the session reads it. */
  datatype Snapshot = Snapshot(
    generation: Option<nat>, position: Option<nat>, connected: bool, paused: bool,
    trackIsNull: bool, terminalGeneration: Option<nat>, terminalReason: Option<string>)

  datatype TrackEventKind =
    | TrackStart
    | TrackEnd(reason: string)
    | TrackException
    | TrackStuck
    | OtherKind

  /** A track event with the generation its user data carries, if any. */
  datatype TrackEvent = TrackEvent(kind: TrackEventKind, generation: Option<nat>)

  const NEW_STATE := State(EMPTY_QUEUE, 0, 0, 0, 0, None, 0, false, false, false, None, 0, [])
}
