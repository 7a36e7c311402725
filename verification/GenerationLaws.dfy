/** A generation of `src/session.rs` is one turn of one track: while it lasts, the current track stays
    the same or is gone. */
module GenerationLaws {
  import opened Options
  import opened Playback
  import Transport
  import TransportLaws
  import opened Session

  /** The generation has grown, or it has not and the current track is still the same, or gone. */
  ghost predicate OneTurn(t: Transport.State, after: Transport.State) {
    t.generation <= after.generation
    && (t.generation == after.generation ==>
          after.queue.current == t.queue.current || after.queue.current.None?)
  }

  lemma TurnsJoin(a: Transport.State, b: Transport.State, c: Transport.State)
    requires OneTurn(a, b) && OneTurn(b, c)
    ensures OneTurn(a, c)
  {}

  lemma StartsBegin(t: Transport.State, replies: seq<Transport.Reply>)
    ensures t.generation < t.StartCurrent(replies, false).0.generation
  {
    TransportLaws.StartAdvancesGeneration(t, replies);
  }

  lemma TurnedByBackend(t: Transport.State, event: Transport.TrackEvent, replies: seq<Transport.Reply>)
    ensures OneTurn(t, t.Backend(event, replies))
  {
    hide Transport.State.StartCurrent, Finish, Fail;
    StartsBegin(t.Advance(Transport.FinishedEvent, Finish(t.queue)), replies);
    StartsBegin(t.Advance(Transport.FailedEvent, Fail(t.queue)), replies);
  }

  lemma TurnedByWatchdog(t: Transport.State, ready: bool, tookMs: nat, answer: Option<Transport.Snapshot>,
                         replies: seq<Transport.Reply>)
    ensures OneTurn(t, t.CheckPlayback(ready, tookMs, answer, replies))
  {
    hide Transport.State.RecoverPlayback, Transport.State.RecoverUnverifiable, Transport.State.WatchdogDue;
    var asked := t.(watchdogRetry := t.now + Transport.RETRY_MS).Elapse(tookMs);
    if answer.None? {
      TurnedByStall(asked.(endDeadline := Some(asked.now + Transport.RETRY_MS)), replies);
    } else {
      TurnedByAnswer(asked, answer.value, replies);
    }
  }

  lemma TurnedByStall(t: Transport.State, replies: seq<Transport.Reply>)
    ensures OneTurn(t, t.RecoverUnverifiable(replies))
  {
    hide Transport.State.StartCurrent, Fail;
    StartsBegin(t.Advance(Transport.WatchdogUnverified, Fail(t.queue)), replies);
  }

  lemma TurnedByAnswer(t: Transport.State, snapshot: Transport.Snapshot, replies: seq<Transport.Reply>)
    ensures OneTurn(t, t.RecoverPlayback(snapshot, replies))
  {
    hide Transport.State.StartCurrent, Transport.State.RecoverUnverifiable, Fail, Finish;
    var seen := t.ObserveProgress(snapshot);
    StartsBegin(seen.Advance(Transport.WatchdogStalled, Fail(seen.queue)), replies);
    StartsBegin(t.Advance(Transport.WatchdogFinished, Finish(t.queue)), replies);
    StartsBegin(t.Advance(Transport.WatchdogFailed, Fail(t.queue)), replies);
    TurnedByStall(t.(endDeadline := Some(t.now + Transport.RETRY_MS)), replies);
  }

  lemma TurnedByCommand(s: State, caller: Caller, command: Command, replies: seq<Transport.Reply>, config: Config)
    ensures OneTurn(s.play, s.Control(caller, command, config.queueLimit, replies).play)
  {
    hide State.MoveOn, State.StopNow, State.Permitted, PreviousResult, CanJump, Previous, Jump, Skip;
    hide Remove, MoveTo, Clear, Shuffled;
    TurnedByMove(s, Previous(s.play.queue, config.queueLimit), replies);
    TurnedByStop(s, caller.ready, replies);
    match command
    case JumpTo(position) => TurnedByMove(s, Jump(s.play.queue, position), replies);
    case SkipTrack => TurnedByMove(s, Skip(s.play.queue), replies);
    case RemoveTrack(_) => RearrangedKeepsCurrent(s.play.queue, command);
    case MoveTrack(_, _) => RearrangedKeepsCurrent(s.play.queue, command);
    case ClearQueue => RearrangedKeepsCurrent(s.play.queue, command);
    case ShuffleQueue(_) => RearrangedKeepsCurrent(s.play.queue, command);
    case _ =>
  }

  lemma TurnedByMove(s: State, queue: QueueState, replies: seq<Transport.Reply>)
    ensures OneTurn(s.play, s.MoveOn(queue, replies).play)
  {
    hide Transport.State.StartCurrent;
    StartsBegin(s.play.Advance(Transport.Control, queue), replies);
  }

  lemma TurnedByStop(s: State, ready: bool, replies: seq<Transport.Reply>)
    ensures OneTurn(s.play, s.StopNow(ready, replies).play)
  {
    hide Transport.State.StartCurrent;
    StartsBegin(s.play.(queue := Stop(s.play.queue), paused := false), replies);
  }

  lemma RearrangedKeepsCurrent(q: QueueState, command: Command)
    ensures Rearranged(q, command).current == q.current
  {}

  lemma TurnedByCommit(s: State, result: Option<Resolution>, env: CommitEnv, config: Config,
                       replies: seq<Transport.Reply>)
    requires s.line.loading.Some?
    ensures OneTurn(s.play, s.Commit(result, env, config, replies).play)
  {
    hide State.Admitted, State.Cleanup;
    var joined := s.(play := s.play.Elapse(env.joined.tookMs));
    TurnedByCleanup(joined.Refuse());
    if result.Some? {
      TurnedByAdmission(s, result.value, env, config, replies);
      TurnedByAdmission(joined.(channel := Some(s.line.loading.value.channel),
                                play := joined.play.(idleAt := Some(joined.play.now))),
                        result.value, env, config, replies);
    }
  }

  lemma TurnedByAdmission(s: State, resolution: Resolution, env: CommitEnv, config: Config,
                          replies: seq<Transport.Reply>)
    requires s.line.loading.Some?
    ensures OneTurn(s.play, s.Admitted(resolution, env, config, replies).play)
  {
    hide Transport.State.StartCurrent, Tagged;
    var tracks := Tagged(resolution.tracks, s.line.loading.value.request);
    StartsBegin(s.play.(queue := Enqueue(s.play.queue, tracks, config.queueLimit), idleAt := None), replies);
  }

  lemma TurnedByCleanup(s: State)
    ensures OneTurn(s.play, s.Cleanup().play)
  {}

  lemma TurnedByVoice(s: State, voice: Voice)
    ensures OneTurn(s.play, s.OnVoice(voice).play)
  {}

  lemma TurnedByTick(s: State, event: Event, config: Config, replies: seq<Transport.Reply>)
    requires event.Ticked?
    ensures OneTurn(s.play, s.Tick(event, config, replies).play)
  {
    hide State.OnVoice, State.Cleanup, Transport.State.CheckPlayback, OneTurn;
    var seen := s.OnVoice(event.voice);
    TurnedByVoice(s, event.voice);
    TurnedByCleanup(seen);
    TurnedByWatchdog(seen.play, event.ready, event.tookMs, event.answer, replies);
    TurnsJoin(s.play, seen.play, s.Tick(event, config, replies).play);
  }

  /** Every message moves the current track on only together with the generation. */
  lemma HandleIsOneTurn(s: State, event: Event, config: Config, replies: seq<Transport.Reply>)
    ensures OneTurn(s.play, s.Handle(event, config, replies).play)
  {
    hide State.OnVoice, State.Cleanup, State.Commit, State.Tick, State.Control, State.Admissible;
    hide Transport.State.StartCurrent, Transport.State.Backend;
    TurnedByCleanup(s);
    match event
    case Commanded(caller, command) => TurnedByCommand(s, caller, command, replies, config);
    case TrackEvent(e) => TurnedByBackend(s.play, e, replies);
    case VoiceChanged(voice) => TurnedByVoice(s, voice);
    case Connected(voice) => TurnedByVoice(s, voice); StartsBegin(s.play, replies);
    case Loaded(sequence, result, env) =>
      if s.line.Loading(sequence) {
        TurnedByCommit(s, result, env, config, replies);
      }
    case Ticked(_, _, _, _) => TurnedByTick(s, event, config, replies);
    case _ =>
  }

  /** So in every run, between two moments of one generation the current track is the same or gone:
      each generation plays at most one track, and moves on from it at most once. */
  lemma {:induction false} GenerationIsOneTurn(s: State, inputs: seq<Input>, config: Config)
    ensures OneTurn(s.play, RunFrom(s, inputs, config).play)
  {
    hide OneTurn, State.Handle, State.Settle;
    if inputs == [] {
      Unturned(s);
    } else {
      var n := |inputs| - 1;
      var mid := RunFrom(s, inputs[..n], config);
      var waited := mid.(play := mid.play.Elapse(inputs[n].waitMs));
      GenerationIsOneTurn(s, inputs[..n], config);
      HandleIsOneTurn(waited, inputs[n].event, config, inputs[n].replies);
      WaitingAndSettling(mid, inputs[n], config);
      TurnsJoin(s.play, mid.play, mid.Step(inputs[n], config).play);
    }
  }

  lemma Unturned(s: State)
    ensures OneTurn(s.play, s.play)
  {}

  lemma WaitingAndSettling(s: State, input: Input, config: Config)
    requires var waited := s.(play := s.play.Elapse(input.waitMs));
             OneTurn(waited.play, waited.Handle(input.event, config, input.replies).play)
    ensures OneTurn(s.play, s.Step(input, config).play)
  {
    hide State.Handle, State.PreparationGoal;
  }
}
