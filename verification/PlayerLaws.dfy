/** The player and the session of `src/session.rs` agree on what is playing. */
module PlayerLaws {
  import opened Options
  import opened Playback
  import QueueLaws
  import opened Transport
  import TransportLaws
  import Admission
  import Session
  import SessionLaws

  /** The last update sent to the player. */
  function LastUpdate(log: seq<Fact>): Option<Fact> {
    if log == [] then None
    else if log[|log| - 1].Updated? then Some(log[|log| - 1])
    else LastUpdate(log[..|log| - 1])
  }

  /** While a track is current, the last update the player was sent is the one that started it in
      the current generation, and the player accepted it. */
  ghost predicate Agrees(t: State) {
    t.queue.current.Some? ==> LastUpdate(t.log) == Some(Updated(t.generation, t.queue.current, true))
  }

  lemma StartAgrees(t: State, replies: seq<Reply>, failed: bool, maxTracks: nat)
    requires QueueLaws.QueueOk(t.queue, maxTracks)
    ensures forall idleAt ::
              Agrees(t.StartCurrent(replies, failed).0.(idleAt := idleAt))
    ensures Agrees(t.StartCurrent(replies, failed).0)
  {
    hide State.StartCurrent;
    TransportLaws.StartIsBounded(t, replies, failed, maxTracks);
  }

  /** Nothing changes for the player: same generation, same current track or none, and at most
      another sign of life in the log. */
  ghost predicate Stays(t: State, after: State) {
    after.generation == t.generation
    && (after.queue.current == t.queue.current || after.queue.current.None?)
    && (after.log == t.log || exists f: Fact :: f.Sign? && after.log == t.log + [f])
  }

  lemma StayingAgrees(t: State, after: State)
    requires Agrees(t) && Stays(t, after)
    ensures Agrees(after)
  {
    if after.log != t.log {
      assert after.log[..|t.log|] == t.log;
    }
  }

  lemma MoveAgrees(t: State, cause: Cause, queue': QueueState, replies: seq<Reply>, maxTracks: nat)
    requires QueueLaws.QueueOk(queue', maxTracks)
    ensures Agrees(t.Advance(cause, queue').StartCurrent(replies, false).0)
  {
    hide State.StartCurrent;
    StartAgrees(t.Advance(cause, queue'), replies, false, maxTracks);
  }

  lemma FinishAgrees(t: State, cause: Cause, replies: seq<Reply>, maxTracks: nat)
    requires QueueLaws.QueueOk(t.queue, maxTracks)
    ensures Agrees(t.FinishTrack(cause, replies)) && Agrees(t.FailTrack(cause, replies))
  {
    hide State.StartCurrent, Agrees, Finish, Fail;
    QueueLaws.ApplyKeepsQueueOk(t.queue, QueueLaws.DoFinish, maxTracks);
    QueueLaws.ApplyKeepsQueueOk(t.queue, QueueLaws.DoFail, maxTracks);
    MoveAgrees(t, cause, Finish(t.queue), replies, maxTracks);
    MoveAgrees(t, cause, Fail(t.queue), replies, maxTracks);
  }

  lemma BackendAgrees(t: State, event: TrackEvent, replies: seq<Reply>, maxTracks: nat)
    requires Agrees(t) && QueueLaws.QueueOk(t.queue, maxTracks)
    ensures Agrees(t.Backend(event, replies))
  {
    hide Agrees, State.FinishTrack, State.FailTrack, State.ScheduleEnd, QueueLaws.QueueOk;
    FinishAgrees(t, FinishedEvent, replies, maxTracks);
    FinishAgrees(t, FailedEvent, replies, maxTracks);
    if !t.started {
      assert Sign(t.generation, t.now).Sign?;
    }
    StayingAgrees(t, t.TrackStarted());
  }

  lemma ObserveAgrees(t: State, snapshot: Snapshot)
    requires Agrees(t)
    ensures Agrees(t.ObserveProgress(snapshot))
    ensures t.ObserveProgress(snapshot).queue == t.queue
  {
    hide Agrees, State.ScheduleEnd;
    assert Sign(t.generation, t.now).Sign?;
    StayingAgrees(t, t.ObserveProgress(snapshot));
  }

  lemma CheckAgrees(t: State, ready: bool, tookMs: nat, answer: Option<Snapshot>,
                    replies: seq<Reply>, maxTracks: nat)
    requires Agrees(t) && QueueLaws.QueueOk(t.queue, maxTracks)
    ensures Agrees(t.CheckPlayback(ready, tookMs, answer, replies))
  {
    hide Agrees, State.FinishTrack, State.FailTrack, State.ScheduleEnd, QueueLaws.QueueOk;
    hide State.ObserveProgress, State.WatchdogDue;
    if t.WatchdogDue(ready) {
      var asked := t.(watchdogRetry := t.now + RETRY_MS).Elapse(tookMs);
      var retried := asked.(endDeadline := Some(asked.now + RETRY_MS));
      StayingAgrees(t, asked);
      StayingAgrees(asked, retried);
      FinishAgrees(retried, WatchdogUnverified, replies, maxTracks);
      if answer.Some? {
        var seen := asked.ObserveProgress(answer.value);
        ObserveAgrees(asked, answer.value);
        StayingAgrees(seen, seen.ScheduleEnd());
        FinishAgrees(seen, WatchdogStalled, replies, maxTracks);
        FinishAgrees(asked, WatchdogFinished, replies, maxTracks);
        FinishAgrees(asked, WatchdogFailed, replies, maxTracks);
      }
    }
  }

  lemma PauseAgrees(t: State, pause: bool, reply: Reply)
    requires Agrees(t)
    ensures Agrees(t.TogglePause(pause, reply))
  {
    hide Agrees, State.ScheduleEnd;
    assert Sign(t.generation, t.now + reply.tookMs).Sign?;
    StayingAgrees(t, t.TogglePause(pause, reply));
  }

  // ----- the actor -----

  lemma CommandAgrees(s: Session.State, caller: Session.Caller, command: Session.Command,
                      replies: seq<Reply>, config: Session.Config)
    requires SessionLaws.SessionOk(s, config) && Agrees(s.play)
    ensures Agrees(s.Control(caller, command, config.queueLimit, replies).play)
  {
    hide Agrees, State.StartCurrent, State.TogglePause, Session.State.Permitted, TransportLaws.LogOk;
    hide Jump, Skip, Previous, Stop, Admission.LineOk, Session.Rearranged;
    match command
    case Pause => PauseAgrees(s.play, true, Session.FirstReply(replies));
    case Resume => PauseAgrees(s.play, false, Session.FirstReply(replies));
    case PlayPrevious => MoveOnAgrees(s, QueueLaws.DoPrevious, replies, config);
    case JumpTo(position) => MoveOnAgrees(s, QueueLaws.DoJump(position), replies, config);
    case SkipTrack => MoveOnAgrees(s, QueueLaws.DoSkip, replies, config);
    case StopPlayback => StopAgrees(s, caller.ready, replies, config);
    case Leave => StayingAgrees(s.play, s.play.Reset());
    case _ => RearrangeAgrees(s, command);
  }

  lemma RearrangeAgrees(s: Session.State, command: Session.Command)
    requires Agrees(s.play)
    ensures Agrees(s.Requeue(Session.Rearranged(s.play.queue, command)).play)
  {
    hide Agrees;
    StayingAgrees(s.play, s.Requeue(Session.Rearranged(s.play.queue, command)).play);
  }

  lemma MoveOnAgrees(s: Session.State, op: QueueLaws.QueueOp, replies: seq<Reply>, config: Session.Config)
    requires SessionLaws.SessionOk(s, config)
    ensures Agrees(s.MoveOn(QueueLaws.Apply(s.play.queue, op, config.queueLimit), replies).play)
  {
    hide State.StartCurrent, Agrees, QueueLaws.Apply, QueueLaws.QueueOk, TransportLaws.LogOk;
    QueueLaws.ApplyKeepsQueueOk(s.play.queue, op, config.queueLimit);
    MoveAgrees(s.play, Control, QueueLaws.Apply(s.play.queue, op, config.queueLimit), replies,
               config.queueLimit);
  }

  lemma StopAgrees(s: Session.State, ready: bool, replies: seq<Reply>, config: Session.Config)
    requires SessionLaws.SessionOk(s, config) && Agrees(s.play)
    ensures Agrees(s.StopNow(ready, replies).play)
  {
    hide State.StartCurrent, Agrees, TransportLaws.LogOk, Admission.LineOk;
    var stopped := s.play.(queue := Stop(s.play.queue), paused := false);
    StayingAgrees(s.play, stopped);
    StayingAgrees(stopped, stopped.(idleAt := Some(stopped.now)));
    StartAgrees(stopped, replies, false, config.queueLimit);
  }

  lemma CommitAgrees(s: Session.State, result: Option<Session.Resolution>, env: Session.CommitEnv,
                     config: Session.Config, replies: seq<Reply>)
    requires SessionLaws.SessionOk(s, config) && Agrees(s.play) && s.line.loading.Some?
    ensures Agrees(s.Commit(result, env, config, replies).play)
  {
    hide State.StartCurrent, Agrees, TransportLaws.LogOk, Admission.LineOk, Session.State.Admitted;
    var waited := s.play.Elapse(env.joined.tookMs);
    var joined := waited.(idleAt := Some(waited.now));
    StayingAgrees(s.play, waited);
    StayingAgrees(waited, joined);
    StayingAgrees(waited, waited.Reset());
    if result.Some? {
      AdmittedAgrees(s, result.value, env, config, replies);
      AdmittedAgrees(s.(play := joined, channel := Some(s.line.loading.value.channel)), result.value, env,
                     config, replies);
    }
  }

  lemma AdmittedAgrees(s: Session.State, resolution: Session.Resolution, env: Session.CommitEnv,
                       config: Session.Config, replies: seq<Reply>)
    requires QueueLaws.QueueOk(s.play.queue, config.queueLimit) && Agrees(s.play)
    requires s.line.loading.Some?
    ensures Agrees(s.Admitted(resolution, env, config, replies).play)
  {
    hide State.StartCurrent, Agrees, Session.Tagged;
    var tracks := Session.Tagged(resolution.tracks, s.line.loading.value.request);
    var enqueued := s.play.(queue := Enqueue(s.play.queue, tracks, config.queueLimit), idleAt := None);
    QueueLaws.ApplyKeepsQueueOk(s.play.queue, QueueLaws.DoEnqueue(tracks), config.queueLimit);
    StartAgrees(enqueued, replies, false, config.queueLimit);
    if s.play.queue.current.Some? {
      StayingAgrees(s.play, enqueued);
    }
  }

  lemma OnVoiceAgrees(s: Session.State, voice: Session.Voice)
    requires Agrees(s.play)
    ensures Agrees(s.OnVoice(voice).play)
  {
    hide Agrees;
    StayingAgrees(s.play, s.OnVoice(voice).play);
  }

  lemma TickAgrees(s: Session.State, event: Session.Event, config: Session.Config, replies: seq<Reply>)
    requires SessionLaws.SessionOk(s, config) && Agrees(s.play) && event.Ticked?
    ensures Agrees(s.Tick(event, config, replies).play)
  {
    hide Agrees, State.CheckPlayback, TransportLaws.LogOk, Admission.LineOk, Session.State.OnVoice;
    var seen := s.OnVoice(event.voice);
    OnVoiceAgrees(s, event.voice);
    SessionLaws.OnVoiceIsGood(s, event.voice, config);
    StayingAgrees(seen.play, seen.play.Reset());
    CheckAgrees(seen.play, event.ready, event.tookMs, event.answer, replies, config.queueLimit);
  }

  lemma HandleAgrees(s: Session.State, event: Session.Event, config: Session.Config, replies: seq<Reply>)
    requires SessionLaws.SessionOk(s, config) && Agrees(s.play)
    ensures Agrees(s.Handle(event, config, replies).play)
  {
    hide Agrees, TransportLaws.LogOk, Admission.LineOk, Session.State.OnVoice, Session.State.Commit;
    hide Session.State.Tick, Session.State.Control, State.StartCurrent;
    hide State.Backend, State.ObserveProgress, Session.State.Admissible;
    StayingAgrees(s.play, s.play.Reset());
    match event
    case Commanded(caller, command) => CommandAgrees(s, caller, command, replies, config);
    case PlayerUpdated(snapshot) => ObserveAgrees(s.play, snapshot);
    case TrackEvent(e) => BackendAgrees(s.play, e, replies, config.queueLimit);
    case VoiceChanged(voice) => OnVoiceAgrees(s, voice);
    case Connected(voice) =>
      OnVoiceAgrees(s, voice);
      StartAgrees(s.play, replies, false, config.queueLimit);
    case Loaded(sequence, result, env) =>
      if s.line.Loading(sequence) {
        CommitAgrees(s, result, env, config, replies);
      }
    case Ticked(_, _, _, _) => TickAgrees(s, event, config, replies);
    case _ =>
  }

  lemma {:induction false} RunAgrees(s: Session.State, inputs: seq<Session.Input>, config: Session.Config)
    requires SessionLaws.SessionOk(s, config) && Agrees(s.play)
    ensures Agrees(Session.RunFrom(s, inputs, config).play)
  {
    hide Agrees, SessionLaws.SessionOk, Session.State.Handle, SessionLaws.LineGrows;
    if inputs != [] {
      var n := |inputs| - 1;
      var mid := Session.RunFrom(s, inputs[..n], config);
      RunAgrees(s, inputs[..n], config);
      SessionLaws.RunKeepsSession(s, inputs[..n], config);
      var waited := mid.(play := mid.play.Elapse(inputs[n].waitMs));
      StayingAgrees(mid.play, waited.play);
      ElapseKeeps(mid, inputs[n].waitMs, config);
      HandleAgrees(waited, inputs[n].event, config, inputs[n].replies);
    }
  }

  lemma ElapseKeeps(s: Session.State, ms: nat, config: Session.Config)
    requires SessionLaws.SessionOk(s, config)
    ensures SessionLaws.SessionOk(s.(play := s.play.Elapse(ms)), config)
  {
    hide Admission.LineOk;
    SessionLaws.ElapseIsGood(s, ms, config);
  }

  /** In every run of the actor, whenever a track is current, the last thing the player was told
      is to play that track under the current generation, and it accepted. */
  lemma PlayerPlaysTheCurrentTrack(inputs: seq<Session.Input>, config: Session.Config)
    ensures Agrees(Session.RunFrom(Session.NEW_SESSION, inputs, config).play)
  {
    SessionLaws.NewSessionIsOk(config);
    RunAgrees(Session.NEW_SESSION, inputs, config);
  }
}
