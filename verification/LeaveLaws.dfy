/** When the bot leaves, and what a command does, in `src/session.rs`. */
module LeaveLaws {
  import opened Options
  import opened Playback
  import QueueLaws
  import Transport
  import TransportLaws
  import TurnLaws
  import opened Session

  // ----- the clocks -----

  /** A track whose end can be foreseen. */
  predicate Finite(t: Transport.State) {
    t.queue.current.Some? && !t.queue.current.value.stream && t.queue.current.value.durationMs > 0
  }

  /** How long it may still take. */
  function Remaining(t: Transport.State): nat
    requires Finite(t)
  {
    Minus(t.queue.current.value.durationMs, t.positionMs)
  }

  /** Progress lies in the past, the watchdog's retry at most five seconds ahead, and a finite track that is not
      paused has a deadline, at most 15 s after it should have ended. */
  predicate Watched(t: Transport.State) {
    t.progressAt <= t.now && t.watchdogRetry <= t.now + 5_000
    && (Finite(t) && !t.paused ==>
          t.endDeadline.Some? && t.endDeadline.value <= t.now + Remaining(t) + 15_000)
  }

  /** The idle clock runs exactly while nothing is current, and the current track is watched. */
  predicate Clocked(t: Transport.State) {
    (t.idleAt.Some? <==> t.queue.current.None?) && Watched(t)
  }

  /** Outside a channel nothing plays and no clock runs; in a channel the idle clock does its part. */
  predicate ClocksOk(s: State) {
    if s.channel.None?
    then s.play.queue.current.None? && s.play.idleAt.None? && s.aloneAt.None? && Watched(s.play)
    else Clocked(s.play)
  }

  lemma {:induction false} StartIsClocked(t: Transport.State, replies: seq<Transport.Reply>, failed: bool)
    ensures Clocked(t.StartCurrent(replies, failed).0)
    decreases t.StartsLeft()
  {
    hide Fail;
    var reply := if replies == [] then Transport.Reply(false, 0) else replies[0];
    if !reply.accepted && t.queue.current.Some? {
      var next := t.Begin().Told(reply).Advance(Transport.StartRefused, Fail(t.queue));
      TransportLaws.FewerStarts(t, next);
      StartIsClocked(next, Transport.Later(replies), true);
    }
  }

  lemma BackendIsClocked(t: Transport.State, event: Transport.TrackEvent, replies: seq<Transport.Reply>)
    requires Clocked(t)
    ensures Clocked(t.Backend(event, replies))
  {
    hide Transport.State.FinishTrack, Transport.State.FailTrack, Transport.State.TrackStarted, Clocked;
    StartedIsClocked(t);
    EndIsClocked(t, Transport.FinishedEvent, replies);
    EndIsClocked(t, Transport.FailedEvent, replies);
  }

  lemma StartedIsClocked(t: Transport.State)
    requires Clocked(t)
    ensures Clocked(t.TrackStarted())
  {}

  lemma CheckIsClocked(t: Transport.State, ready: bool, tookMs: nat, answer: Option<Transport.Snapshot>,
                       replies: seq<Transport.Reply>)
    requires Clocked(t)
    ensures Clocked(t.CheckPlayback(ready, tookMs, answer, replies))
  {
    hide Transport.State.RecoverPlayback, Transport.State.RecoverUnverifiable, Transport.State.WatchdogDue, Clocked;
    var asked := t.(watchdogRetry := t.now + Transport.RETRY_MS).Elapse(tookMs);
    var retried := asked.(endDeadline := Some(asked.now + Transport.RETRY_MS));
    AskedIsClocked(t, tookMs);
    StallIsClocked(retried, replies);
    if answer.Some? {
      AnswerIsClocked(asked, answer.value, replies);
    }
  }

  lemma AskedIsClocked(t: Transport.State, tookMs: nat)
    requires Clocked(t)
    ensures var asked := t.(watchdogRetry := t.now + Transport.RETRY_MS).Elapse(tookMs);
            Clocked(asked) && Clocked(asked.(endDeadline := Some(asked.now + Transport.RETRY_MS)))
  {}

  lemma ReportIsClocked(t: Transport.State, snapshot: Transport.Snapshot)
    requires Watched(t)
    ensures Watched(t.ObserveProgress(snapshot)) && Watched(t.ObserveProgress(snapshot).ScheduleEnd())
    ensures t.ObserveProgress(snapshot).idleAt == t.idleAt && t.ObserveProgress(snapshot).queue == t.queue
  {}

  lemma StallIsClocked(t: Transport.State, replies: seq<Transport.Reply>)
    requires Clocked(t)
    ensures Clocked(t.RecoverUnverifiable(replies))
  {
    hide Transport.State.StartCurrent, Fail;
    StartIsClocked(t.Advance(Transport.WatchdogUnverified, Fail(t.queue)), replies, false);
  }

  lemma AnswerIsClocked(t: Transport.State, snapshot: Transport.Snapshot, replies: seq<Transport.Reply>)
    requires Clocked(t)
    ensures Clocked(t.RecoverPlayback(snapshot, replies))
  {
    hide Transport.State.FinishTrack, Transport.State.FailTrack, Transport.State.RecoverUnverifiable,
         Transport.State.ObserveProgress, Transport.State.ScheduleEnd, Clocked;
    var seen := t.ObserveProgress(snapshot);
    SeenIsClocked(t, snapshot);
    EndIsClocked(seen, Transport.WatchdogStalled, replies);
    EndIsClocked(t, Transport.WatchdogFinished, replies);
    EndIsClocked(t, Transport.WatchdogFailed, replies);
    LaterIsClocked(t);
    StallIsClocked(t.(endDeadline := Some(t.now + Transport.RETRY_MS)), replies);
  }

  lemma SeenIsClocked(t: Transport.State, snapshot: Transport.Snapshot)
    requires Clocked(t)
    ensures Clocked(t.ObserveProgress(snapshot)) && Clocked(t.ObserveProgress(snapshot).ScheduleEnd())
  {
    hide Watched, Transport.State.ObserveProgress;
    ReportIsClocked(t, snapshot);
  }

  lemma LaterIsClocked(t: Transport.State)
    requires Clocked(t)
    ensures Clocked(t.(endDeadline := Some(t.now + Transport.RETRY_MS)))
  {}

  lemma EndIsClocked(t: Transport.State, cause: Transport.Cause, replies: seq<Transport.Reply>)
    ensures Clocked(t.FinishTrack(cause, replies)) && Clocked(t.FailTrack(cause, replies))
  {
    hide Transport.State.StartCurrent, Finish, Fail, Clocked;
    StartIsClocked(t.Advance(cause, Finish(t.queue)), replies, false);
    StartIsClocked(t.Advance(cause, Fail(t.queue)), replies, false);
  }

  lemma MoveIsClocked(s: State, queue: QueueState, replies: seq<Transport.Reply>)
    ensures Clocked(s.MoveOn(queue, replies).play)
  {
    hide Transport.State.StartCurrent, Clocked;
    StartIsClocked(s.play.Advance(Transport.Control, queue), replies, false);
  }

  lemma StopIsClocked(s: State, ready: bool, replies: seq<Transport.Reply>)
    requires ClocksOk(s)
    ensures ClocksOk(s.StopNow(ready, replies))
  {
    hide Transport.State.StartCurrent;
    NothingStarts(s.play.(queue := Stop(s.play.queue), paused := false), replies);
    StartIsClocked(s.play.(queue := Stop(s.play.queue), paused := false), replies, false);
  }

  lemma NothingStarts(t: Transport.State, replies: seq<Transport.Reply>)
    requires t.queue.current.None?
    ensures t.StartCurrent(replies, false).0.queue == t.queue
  {}

  lemma RearrangedIsClocked(s: State, command: Command)
    requires ClocksOk(s)
    ensures ClocksOk(s.Requeue(Rearranged(s.play.queue, command)))
  {}

  lemma PauseIsClocked(t: Transport.State, pause: bool, reply: Transport.Reply)
    requires Watched(t)
    ensures t.TogglePause(pause, reply).queue == t.queue && t.TogglePause(pause, reply).idleAt == t.idleAt
    ensures Watched(t.TogglePause(pause, reply))
  {}

  lemma CommandKeepsClocks(s: State, caller: Caller, command: Command, replies: seq<Transport.Reply>, config: Config)
    requires ClocksOk(s)
    ensures ClocksOk(s.Control(caller, command, config.queueLimit, replies))
  {
    hide State.MoveOn, State.StopNow, State.Requeue, Transport.State.TogglePause, Rearranged;
    hide Previous, Jump, Skip, PreviousResult, CanJump;
    StopIsClocked(s, caller.ready, replies);
    PauseIsClocked(s.play, true, FirstReply(replies));
    PauseIsClocked(s.play, false, FirstReply(replies));
    RearrangedIsClocked(s, command);
    MoveIsClocked(s, Previous(s.play.queue, config.queueLimit), replies);
    MoveIsClocked(s, Skip(s.play.queue), replies);
    if command.JumpTo? {
      MoveIsClocked(s, Jump(s.play.queue, command.position), replies);
    }
    MovingKeepsChannel(s, replies);
  }

  lemma MovingKeepsChannel(s: State, replies: seq<Transport.Reply>)
    ensures forall queue :: s.MoveOn(queue, replies).channel == s.channel
  {
    hide Transport.State.StartCurrent;
  }

  lemma AdmissionKeepsClocks(s: State, resolution: Resolution, env: CommitEnv, config: Config,
                             replies: seq<Transport.Reply>)
    requires ClocksOk(s) && s.channel.Some? && s.line.loading.Some?
    ensures ClocksOk(s.Admitted(resolution, env, config, replies))
  {
    hide Transport.State.StartCurrent, Tagged;
    var tracks := Tagged(resolution.tracks, s.line.loading.value.request);
    StartIsClocked(s.play.(queue := Enqueue(s.play.queue, tracks, config.queueLimit), idleAt := None), replies, false);
  }

  lemma CommitKeepsClocks(s: State, result: Option<Resolution>, env: CommitEnv, config: Config,
                          replies: seq<Transport.Reply>)
    requires ClocksOk(s) && s.line.loading.Some?
    ensures ClocksOk(s.Commit(result, env, config, replies))
  {
    hide State.Admitted;
    if result.Some? {
      if s.channel.Some? {
        AdmissionKeepsClocks(s, result.value, env, config, replies);
      } else {
        var waited := s.play.Elapse(env.joined.tookMs);
        var joined := s.(channel := Some(s.line.loading.value.channel), play := waited.(idleAt := Some(waited.now)));
        AdmissionKeepsClocks(joined, result.value, env, config, replies);
      }
    }
  }

  lemma VoiceKeepsClocks(s: State, voice: Voice)
    requires ClocksOk(s)
    ensures ClocksOk(s.OnVoice(voice))
  {}

  lemma CleanupKeepsClocks(s: State)
    requires Watched(s.play)
    ensures ClocksOk(s.Cleanup())
  {}

  lemma TickKeepsClocks(s: State, event: Event, config: Config, replies: seq<Transport.Reply>)
    requires ClocksOk(s) && event.Ticked?
    ensures ClocksOk(s.Tick(event, config, replies))
  {
    hide State.OnVoice, State.Cleanup, Transport.State.CheckPlayback;
    var seen := s.OnVoice(event.voice);
    VoiceKeepsClocks(s, event.voice);
    CleanupKeepsClocks(seen);
    if seen.channel.Some? {
      CheckIsClocked(seen.play, event.ready, event.tookMs, event.answer, replies);
    } else {
      NothingToCheck(seen.play, event.ready, event.tookMs, event.answer, replies);
    }
  }

  lemma NothingToCheck(t: Transport.State, ready: bool, tookMs: nat, answer: Option<Transport.Snapshot>,
                       replies: seq<Transport.Reply>)
    requires t.queue.current.None?
    ensures t.CheckPlayback(ready, tookMs, answer, replies) == t
  {}

  lemma HandleKeepsClocks(s: State, event: Event, config: Config, replies: seq<Transport.Reply>)
    requires ClocksOk(s)
    ensures ClocksOk(s.Handle(event, config, replies))
  {
    hide State.OnVoice, State.Cleanup, State.Commit, State.Tick, State.Control, State.Admissible;
    hide Transport.State.StartCurrent, Transport.State.Backend, Transport.State.ObserveProgress, Watched;
    CleanupKeepsClocks(s);
    match event
    case Commanded(caller, command) => CommandKeepsClocks(s, caller, command, replies, config);
    case TrackEvent(e) => if s.channel.Some? { BackendIsClocked(s.play, e, replies); }
    case VoiceChanged(voice) => VoiceKeepsClocks(s, voice);
    case Connected(voice) => VoiceKeepsClocks(s, voice); StartIsClocked(s.play, replies, false);
    case PlayerUpdated(snapshot) => ReportIsClocked(s.play, snapshot);
    case Loaded(sequence, result, env) =>
      if s.line.Loading(sequence) {
        CommitKeepsClocks(s, result, env, config, replies);
      }
    case Ticked(_, _, _, _) => TickKeepsClocks(s, event, config, replies);
    case _ =>
  }

  /** In every run: outside a channel nothing plays, and in a channel the idle clock runs exactly while
      nothing is current; and the current track is watched. */
  lemma {:induction false} IdleMeansNothingPlays(inputs: seq<Input>, config: Config)
    ensures ClocksOk(RunFrom(NEW_SESSION, inputs, config))
  {
    hide ClocksOk, State.Handle, State.Settle;
    if inputs == [] {
      NewIsClocked();
    } else {
      var n := |inputs| - 1;
      var before := RunFrom(NEW_SESSION, inputs[..n], config);
      IdleMeansNothingPlays(inputs[..n], config);
      WaitingKeepsClocks(before, inputs[n].waitMs);
      var waited := before.(play := before.play.Elapse(inputs[n].waitMs));
      HandleKeepsClocks(waited, inputs[n].event, config, inputs[n].replies);
      SettlingKeepsClocks(waited.Handle(inputs[n].event, config, inputs[n].replies));
    }
  }

  /** So in every run a track that is not paused is looked at: after 60 s without anything new, and if it is
      finite no later than 15 s after it should have ended. */
  lemma TracksAreWatched(inputs: seq<Input>, config: Config, ms: nat)
    ensures var t := RunFrom(NEW_SESSION, inputs, config).play;
            t.queue.current.Some? && !t.paused && (ms >= 60_000 || (Finite(t) && ms >= Remaining(t) + 15_000))
            ==> t.Elapse(ms).WatchdogDue(true)
  {
    hide RunFrom;
    IdleMeansNothingPlays(inputs, config);
  }

  lemma NewIsClocked()
    ensures ClocksOk(NEW_SESSION)
  {}

  lemma WaitingKeepsClocks(s: State, ms: nat)
    requires ClocksOk(s)
    ensures ClocksOk(s.(play := s.play.Elapse(ms)))
  {}

  lemma SettlingKeepsClocks(s: State)
    requires ClocksOk(s)
    ensures ClocksOk(s.Settle())
  {
    hide State.PreparationGoal;
  }

  // ----- leaving -----

  /** A voice state leaves the bot where it is. */
  predicate Stays(s: State, voice: Voice) {
    voice.present
    && (voice.available ==>
          voice.botChannel == s.channel && (voice.refresh.Some? ==> voice.refresh.value.accepted))
  }

  /** How long the answer to a refresh takes, if one is made. */
  function RefreshMs(voice: Voice): nat {
    if voice.available && voice.refresh.Some? then voice.refresh.value.tookMs else 0
  }

  /** Since when the bot is alone, by this voice state: unknown states change nothing. */
  function AloneSince(s: State, voice: Voice): Option<nat> {
    if !voice.available then s.aloneAt
    else if !voice.alone then None
    else if s.aloneAt.Some? then s.aloneAt else Some(s.play.now + RefreshMs(voice))
  }

  /** A voice state makes the bot leave exactly if it does not stay; else it only moves the alone clock. */
  lemma VoiceLeavesExactly(s: State, voice: Voice)
    requires s.channel.Some?
    ensures var after := s.OnVoice(voice);
            (after.channel.None? <==> !Stays(s, voice))
            && (Stays(s, voice) ==>
                  after == s.(aloneAt := AloneSince(s, voice), play := s.play.Elapse(RefreshMs(voice))))
  {}

  /** A tick makes the bot leave exactly if its voice state does, or it has been alone or idle for as long
      as the configuration allows; else the watchdog looks at the track. */
  lemma TickLeavesExactly(s: State, event: Event, config: Config, replies: seq<Transport.Reply>)
    requires s.channel.Some? && event.Ticked?
    ensures var after := s.Tick(event, config, replies);
            var since := AloneSince(s, event.voice);
            var now := s.play.now + RefreshMs(event.voice);
            (after.channel.None?
             <==> !Stays(s, event.voice)
                  || (since.Some? && now >= since.value + config.aloneMs)
                  || (s.play.idleAt.Some? && now >= s.play.idleAt.value + config.idleMs))
            && (after.channel.Some? ==>
                  after.play == s.play.Elapse(RefreshMs(event.voice))
                                  .CheckPlayback(event.ready, event.tookMs, event.answer, replies))
  {
    hide State.OnVoice, Transport.State.CheckPlayback, Stays;
    VoiceLeavesExactly(s, event.voice);
    if s.OnVoice(event.voice).channel.None? {
      StaysGone(s.OnVoice(event.voice), event, config, replies);
    }
  }

  lemma StaysGone(seen: State, event: Event, config: Config, replies: seq<Transport.Reply>)
    requires event.Ticked? && seen.channel.None?
    ensures seen.Cleanup().channel.None?
  {}

  // ----- commands -----

  /** The caller is in the bot's channel, or the bot is in none and is told to stop or leave. */
  predicate Heard(s: State, caller: Caller, command: Command) {
    caller.channel.Some?
    && (s.channel == caller.channel || (s.channel.None? && (command.StopPlayback? || command.Leave?)))
    && (caller.ready || !(command.Pause? || command.Resume? || command.PlayPrevious? || command.SkipTrack?
                          || command.JumpTo?))
  }

  /** What a command does when it is heard and the player accepts the update it leads to. */
  ghost predicate Does(s: State, command: Command, after: State, reply: Transport.Reply, maxTracks: nat) {
    var q := s.play.queue;
    match command
    case Pause => after == s.(play := s.play.TogglePause(true, reply))
    case Resume => after == s.(play := s.play.TogglePause(false, reply))
    case SetLoop(mode) => after.play == s.play.(queue := q.(loopMode := mode))
    case RemoveTrack(position) => after.play == s.play.(queue := Remove(q, position))
    case MoveTrack(from, to) => after.play == s.play.(queue := MoveTo(q, from, to))
    case ClearQueue => after.play == s.play.(queue := q.(upcoming := []))
    case ShuffleQueue(order) =>
      after.play == s.play.(queue := if |q.upcoming| >= 2 && multiset(order) == multiset(q.upcoming)
                                     then q.(upcoming := order) else q)
    case PlayPrevious =>
      if PreviousResult(q, maxTracks).Started?
      then after.play.queue == Previous(q, maxTracks) && after.play.generation == s.play.generation + 1
      else after == s
    case JumpTo(position) =>
      if CanJump(q, position)
      then after.play.queue == Jump(q, position) && after.play.generation == s.play.generation + 1
      else after == s
    case SkipTrack =>
      if q.current.Some? then QueueLaws.Skipped(q, after.play.queue) && after.play.generation == s.play.generation + 1
      else after == s
    case StopPlayback =>
      after.play.queue == QueueState(None, [], [], q.loopMode, 0) && after.channel == s.channel
      && after.line == s.line.Invalidate()
    case Leave =>
      after.play.queue == EMPTY_QUEUE && after.channel.None? && after.line == s.line.Invalidate()
  }

  /** A command that is not heard changes nothing; one that is does what it says. */
  lemma CommandsDo(s: State, caller: Caller, command: Command, config: Config, replies: seq<Transport.Reply>)
    requires TurnLaws.Accepts(replies) && |s.play.queue.history| <= HISTORY_LIMIT
    ensures var after := s.Handle(Commanded(caller, command), config, replies);
            if Heard(s, caller, command) then Does(s, command, after, replies[0], config.queueLimit) else after == s
  {
    hide Does, State.Navigate, State.StopNow, State.Cleanup, Transport.State.TogglePause;
    if command.PlayPrevious? || command.JumpTo? || command.SkipTrack? {
      NavigatingDoes(s, command, config, replies);
    } else if command.StopPlayback? || command.Leave? {
      StoppingDoes(s, command, caller.ready, config, replies);
    } else {
      RearrangingDoes(s, caller, command, config, replies);
    }
  }

  lemma NavigatingDoes(s: State, command: Command, config: Config, replies: seq<Transport.Reply>)
    requires TurnLaws.Accepts(replies) && |s.play.queue.history| <= HISTORY_LIMIT
    requires command.PlayPrevious? || command.JumpTo? || command.SkipTrack?
    ensures Does(s, command, s.Navigate(command, config.queueLimit, replies), replies[0], config.queueLimit)
  {
    hide Transport.State.StartCurrent, Previous, Jump, Skip, PreviousResult, CanJump, QueueLaws.Skipped;
    var q := s.play.queue;
    if q.current.Some? {
      QueueLaws.SkipSkips(q);
    }
    TurnLaws.AcceptedStart(s.play.Advance(Transport.Control, Skip(q)), replies);
    TurnLaws.AcceptedStart(s.play.Advance(Transport.Control, Previous(q, config.queueLimit)), replies);
    if command.JumpTo? {
      TurnLaws.AcceptedStart(s.play.Advance(Transport.Control, Jump(q, command.position)), replies);
    }
  }

  lemma StoppingDoes(s: State, command: Command, ready: bool, config: Config, replies: seq<Transport.Reply>)
    requires TurnLaws.Accepts(replies) && (command.StopPlayback? || command.Leave?)
    ensures var after := if command.Leave? then s.Cleanup() else s.StopNow(ready, replies);
            Does(s, command, after, replies[0], config.queueLimit)
  {
    hide Transport.State.StartCurrent;
    NothingStarts(s.play.(queue := Stop(s.play.queue), paused := false), replies);
  }

  lemma RearrangingDoes(s: State, caller: Caller, command: Command, config: Config, replies: seq<Transport.Reply>)
    requires TurnLaws.Accepts(replies)
    requires !command.PlayPrevious? && !command.JumpTo? && !command.SkipTrack? && !command.StopPlayback?
             && !command.Leave?
    ensures var after := s.Control(caller, command, config.queueLimit, replies);
            if Heard(s, caller, command) then Does(s, command, after, replies[0], config.queueLimit) else after == s
  {
    hide Transport.State.TogglePause, Remove, MoveTo;
  }

  // ----- what is to be prepared -----

  /** What is to be prepared is what a natural end would play next, as `PreparedIsWhatPlaysNext` says, and
      nothing unless a track is playing in a channel. */
  lemma GoalIsWhatPlaysNext(s: State)
    ensures s.PreparationGoal()
            == if s.play.started && !s.play.paused && s.channel.Some?
                  && QueueLaws.EndsSoon(s.play.queue, s.play.Position())
                  && QueueLaws.NeedsPreparing(s.play.queue, Finish(s.play.queue).current)
               then Some(Finish(s.play.queue).current.value.encoded) else None
  {
    hide Finish, PreparationTarget;
    QueueLaws.PreparedIsWhatPlaysNext(s.play.queue, s.play.Position());
  }

  // ----- events that find no place -----

  /** Outside a channel no message of the player or of the voice state does anything. */
  lemma OutsideNothingHappens(s: State, event: Event, config: Config, replies: seq<Transport.Reply>)
    requires s.channel.None?
    requires event.PlayerUpdated? || event.TrackEvent? || event.VoiceSocketClosed? || event.VoiceChanged?
             || event.Connected?
    ensures s.Handle(event, config, replies) == s
  {}

  /** A player that reconnects while nothing is current is told so; with a current track only the voice state is
      looked at, and the track goes on. */
  lemma ReconnectedPlayerIsTold(s: State, voice: Voice, config: Config, replies: seq<Transport.Reply>)
    requires s.channel.Some? && TurnLaws.Accepts(replies)
    ensures var after := s.Handle(Connected(voice), config, replies);
            if s.play.queue.current.None?
            then after.play.log == s.play.log + [Transport.Sign(s.play.generation + 1, s.play.now),
                                                 Transport.Updated(s.play.generation + 1, None, true)]
                 && after == s.(play := after.play)
            else (Stays(s, voice) ==> after.play == s.play.Elapse(RefreshMs(voice)))
  {
    hide Stays, State.OnVoice;
    VoiceLeavesExactly(s, voice);
  }

  /** In a channel the player's messages reach the track, and touch nothing else: a report of this generation moves
      the position, and an event of this generation ends the turn as `EventsEndTurns` says. */
  lemma MessagesReachTheTrack(s: State, event: Event, config: Config, replies: seq<Transport.Reply>)
    requires s.channel.Some? && TurnLaws.Accepts(replies)
    requires s.play.queue.current.Some? && |s.play.queue.history| <= HISTORY_LIMIT
    ensures var after := s.Handle(event, config, replies);
            (event.PlayerUpdated? ==>
               var snapshot := event.snapshot;
               after == s.(play := after.play)
               && (snapshot.generation == Some(s.play.generation) && snapshot.position.Some? ==>
                     after.play.Position()
                     == if snapshot.position.value > s.play.positionMs then snapshot.position.value
                        else s.play.positionMs))
            && (event.TrackEvent? ==>
                  var e := event.event;
                  after == s.(play := after.play)
                  && (e.generation == Some(s.play.generation) && e.kind == Transport.TrackEnd("finished") ==>
                        QueueLaws.Ended(s.play.queue, after.play.queue))
                  && (e.generation == Some(s.play.generation) && e.kind.TrackStuck? ==>
                        QueueLaws.Failed(s.play.queue, after.play.queue)))
  {
    hide Transport.State.Backend, Transport.State.ObserveProgress, QueueLaws.Ended, QueueLaws.Failed;
    if event.PlayerUpdated? && event.snapshot.generation == Some(s.play.generation) && event.snapshot.position.Some? {
      TurnLaws.ReportsTell(s.play, event.snapshot);
    }
    if event.TrackEvent? && event.event.generation == Some(s.play.generation) {
      TurnLaws.EventsEndTurns(s.play, event.event, replies);
    }
  }

  // ----- what is left after leaving -----

  /** Nothing is played, prepared, waited for or remembered. */
  predicate Forgotten(s: State, epoch: nat) {
    s.play.queue == EMPTY_QUEUE && !s.play.started && !s.play.paused && !s.play.connected
    && s.play.endDeadline.None? && s.play.idleAt.None? && s.aloneAt.None?
    && s.prep.inFlight == [] && s.prep.target.None? && s.prep.live.None?
    && s.line.Waiting() == [] && s.line.epoch == epoch + 1
  }

  lemma CleanupForgets(s: State)
    ensures Forgotten(s.Cleanup(), s.line.epoch) && s.Cleanup().channel.None?
  {}

  lemma VoiceForgets(s: State, voice: Voice)
    requires s.channel.Some?
    ensures s.OnVoice(voice).channel.Some? || Forgotten(s.OnVoice(voice), s.line.epoch)
    ensures s.OnVoice(voice).channel.Some? ==> s.OnVoice(voice).line == s.line
  {
    hide State.Cleanup;
    CleanupForgets(s);
    if voice.refresh.Some? {
      CleanupForgets(s.(play := s.play.Elapse(voice.refresh.value.tookMs)));
    }
  }

  lemma TickForgets(s: State, event: Event, config: Config, replies: seq<Transport.Reply>)
    requires s.channel.Some? && event.Ticked?
    ensures var after := s.Tick(event, config, replies);
            after.channel.Some? || Forgotten(after, s.line.epoch)
  {
    hide State.OnVoice, State.Cleanup, Forgotten, Transport.State.CheckPlayback;
    var seen := s.OnVoice(event.voice);
    VoiceForgets(s, event.voice);
    CleanupForgets(seen);
    if seen.channel.None? {
      NothingLeftToDo(seen, s.line.epoch);
      NothingToCheck(seen.play, event.ready, event.tookMs, event.answer, replies);
    }
  }

  lemma NothingLeftToDo(s: State, epoch: nat)
    requires Forgotten(s, epoch)
    ensures s.aloneAt.None? && s.play.idleAt.None? && s.play.queue.current.None?
  {}

  lemma CommandForgets(s: State, caller: Caller, command: Command, config: Config, replies: seq<Transport.Reply>)
    requires s.channel.Some?
    ensures var after := s.Control(caller, command, config.queueLimit, replies);
            after.channel.Some? || Forgotten(after, s.line.epoch)
  {
    hide State.Cleanup, State.MoveOn, State.StopNow, Forgotten;
    CleanupForgets(s);
    MovingKeepsChannel(s, replies);
    StoppingKeepsChannel(s, caller.ready, replies);
  }

  lemma StoppingKeepsChannel(s: State, ready: bool, replies: seq<Transport.Reply>)
    ensures s.StopNow(ready, replies).channel == s.channel
  {
    hide Transport.State.StartCurrent;
  }

  lemma CommitKeepsChannel(s: State, result: Option<Resolution>, env: CommitEnv, config: Config,
                           replies: seq<Transport.Reply>)
    requires s.channel.Some? && s.line.loading.Some?
    ensures s.Commit(result, env, config, replies).channel == s.channel
  {
    hide Transport.State.StartCurrent, Enqueue, Tagged;
  }

  /** Whatever makes the bot leave its channel, nothing of what it did there is left. */
  lemma LeavingForgetsEverything(s: State, event: Event, config: Config, replies: seq<Transport.Reply>)
    requires s.channel.Some?
    ensures var after := s.Handle(event, config, replies);
            after.channel.Some? || Forgotten(after, s.line.epoch)
  {
    hide State.Control, State.Cleanup, State.OnVoice, State.Tick, State.Commit, Forgotten, State.Admissible;
    hide Transport.State.Backend, Transport.State.ObserveProgress, Transport.State.StartCurrent;
    CleanupForgets(s);
    match event
    case Commanded(caller, command) => CommandForgets(s, caller, command, config, replies);
    case VoiceChanged(voice) => VoiceForgets(s, voice);
    case Connected(voice) => VoiceForgets(s, voice);
    case Loaded(sequence, result, env) =>
      if s.line.Loading(sequence) {
        CommitKeepsChannel(s, result, env, config, replies);
      }
    case Ticked(_, _, _, _) => TickForgets(s, event, config, replies);
    case _ =>
  }
}
