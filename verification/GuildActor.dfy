/** The `GuildSession` actor of `src/session.rs`: one handler per message, updating the session in
    place. Its fields are kept in three objects, one each for playback, play requests and
    preparation; every handler is proved to do exactly what the step of `Session` says. */
module GuildActor {
  import opened Options
  import opened Playback
  import opened Admission
  import Transport
  import Preparation
  import Session
  import opened Playhead
  import opened RequestLine
  import opened Preparer

  class GuildSession {
    const config: Session.Config
    const play: Playhead
    const requests: RequestLine
    const preparer: Preparer
    var channel: Option<nat>
    var aloneAt: Option<nat>

    ghost function State(): Session.State
      reads this, play, play.queue, requests, preparer
    {
      Session.State(play.State(), requests.State(), preparer.State(), channel, aloneAt)
    }

    constructor (config: Session.Config)
      ensures State() == Session.NEW_SESSION && this.config == config
      ensures fresh(play) && fresh(play.queue) && fresh(requests) && fresh(preparer)
    {
      this.config := config;
      play := new Playhead();
      requests := new RequestLine();
      preparer := new Preparer();
      channel, aloneAt := None, None;
    }

    // ----- leaving and the voice state -----

    method Cleanup()
      modifies this, play, requests, preparer
      ensures State() == old(State()).Cleanup() && fresh(play.queue)
    {
      hide Line.Invalidate, Transport.State.Reset;
      preparer.Cleanup(play.clock);
      requests.Invalidate();
      channel := None;
      play.Reset();
      aloneAt := None;
    }

    method UpdateAlone(alone: bool)
      modifies this`aloneAt
      ensures State() == old(State()).UpdateAlone(alone)
    {
      if channel.Some? && alone {
        aloneAt := Some(if aloneAt.Some? then aloneAt.value else play.clock);
      } else {
        aloneAt := None;
      }
    }

    method OnVoiceChanged(voice: Session.Voice)
      modifies this, play, requests, preparer
      ensures State() == old(State()).OnVoice(voice)
      ensures play.queue == old(play.queue) || fresh(play.queue)
    {
      hide Session.State.Cleanup, Session.State.UpdateAlone;
      if channel.None? {
        return;
      }
      if !voice.present {
        Cleanup();
        return;
      }
      if !voice.available {
        return;
      }
      if voice.botChannel != channel {
        Cleanup();
        return;
      }
      if voice.refresh.Some? {
        play.Await(voice.refresh.value.tookMs);
        if !voice.refresh.value.accepted {
          Cleanup();
          return;
        }
      }
      UpdateAlone(voice.alone);
    }

    // ----- commands -----

    method Stop(ready: bool, replies: seq<Transport.Reply>)
      modifies this, play, play.queue, requests
      ensures State() == old(State()).StopNow(ready, replies) && play.queue == old(play.queue)
    {
      hide Transport.State.StartCurrent, Line.Invalidate;
      requests.Invalidate();
      play.StopQueue();
      if channel.Some? {
        if ready {
          var _ := play.StartCurrent(replies);
        }
        play.SetIdle(Some(play.clock));
      }
    }

    /** Skip, jump and previous. */
    method Navigate(command: Session.Command, replies: seq<Transport.Reply>)
      requires command.PlayPrevious? || command.JumpTo? || command.SkipTrack?
      modifies play, play.queue
      ensures State() == old(State()).Navigate(command, config.queueLimit, replies)
      ensures play.queue == old(play.queue)
    {
      hide Transport.State.StartCurrent, Previous, Jump, Skip;
      ghost var before := play.State();
      var moved := true;
      if command.PlayPrevious? {
        var outcome := play.queue.PlayPrevious(config.queueLimit);
        moved := outcome.Started?;
      } else if command.JumpTo? {
        moved := play.queue.JumpTo(command.position);
      } else {
        moved := play.queue.current.Some?;
        play.queue.SkipCurrent();
      }
      UnmovedQueue(before.queue, command, config.queueLimit);
      if moved {
        play.MoveOn(replies, before);
      }
    }

    /** The commands that only rearrange the queue. */
    method Rearrange(command: Session.Command)
      modifies play.queue
      ensures State() == old(State()).Requeue(Session.Rearranged(old(play.queue.State()), command))
    {
      match command {
        case SetLoop(mode) => play.queue.loopMode := mode;
        case RemoveTrack(position) => var _ := play.queue.RemovePosition(position);
        case MoveTrack(from, to) => var _ := play.queue.Move(from, to);
        case ClearQueue => var _ := play.queue.ClearUpcoming();
        case ShuffleQueue(order) =>
          if multiset(order) == multiset(play.queue.upcoming) {
            var _ := play.queue.Shuffle(order);
          }
        case _ =>
      }
    }

    method Control(caller: Session.Caller, command: Session.Command, replies: seq<Transport.Reply>)
      modifies this, play, play.queue, requests, preparer
      ensures State() == old(State()).Control(caller, command, config.queueLimit, replies)
      ensures play.queue == old(play.queue) || fresh(play.queue)
    {
      hide Session.State.Cleanup, Session.State.StopNow, Transport.State.TogglePause;
      hide Session.State.Navigate, Session.State.Requeue, Session.Rearranged;
      if (!caller.ready && Session.NeedsService(command)) || caller.channel.None? {
        return;
      }
      if channel.None? && !command.StopPlayback? && !command.Leave? {
        return;
      }
      if channel.Some? && channel != caller.channel {
        return;
      }
      match command {
        case Pause => play.TogglePause(true, Session.FirstReply(replies));
        case Resume => play.TogglePause(false, Session.FirstReply(replies));
        case PlayPrevious => Navigate(command, replies);
        case JumpTo(position) => Navigate(command, replies);
        case SkipTrack => Navigate(command, replies);
        case StopPlayback => Stop(caller.ready, replies);
        case Leave => Cleanup();
        case _ => Rearrange(command);
      }
    }

    // ----- play requests -----

    method PreparePlay(ready: bool, blank: bool, request: Request, access: Option<nat>)
      modifies requests
      ensures var event := Session.Play(ready, blank, request, access);
              State() == if old(State()).Admissible(event, config)
                         then old(State()).(line := old(State()).line.Admit(request, access.value))
                         else old(State())
    {
      if !ready || blank {
        return;
      }
      if |requests.pending| + (if requests.loading.Some? then 1 else 0) >= config.pendingLimit {
        return;
      }
      if access.None? || (channel.Some? && channel != access)
         || play.queue.Length() >= config.queueLimit
      {
        return;
      }
      requests.Admit(request, access.value);
    }

    /** A completed load whose request is still the one being loaded. */
    method Commit(result: Option<Session.Resolution>, env: Session.CommitEnv,
                  replies: seq<Transport.Reply>)
      requires requests.loading.Some?
      modifies this, play, play.queue, requests, preparer
      ensures State() == old(State()).Commit(result, env, config, replies)
      ensures play.queue == old(play.queue) || fresh(play.queue)
    {
      hide Session.State.Cleanup, Session.State.Admitted, Line.SettleLoading;
      var pending := requests.loading.value;
      if pending.epoch != requests.epoch {
        requests.SettleLoading(Cancelled);
        return;
      }
      if result.None? || !env.access || (channel.Some? && channel.value != pending.channel)
         || play.queue.Length() >= config.queueLimit
      {
        requests.SettleLoading(Refused);
        return;
      }
      if channel.None? {
        play.Await(env.joined.tookMs);
        if !env.joined.accepted {
          requests.SettleLoading(Refused);
          Cleanup();
          return;
        }
        channel := Some(pending.channel);
        play.SetIdle(Some(play.clock));
      }
      EnqueueResolved(result.value, env, replies);
    }

    method EnqueueResolved(resolution: Session.Resolution, env: Session.CommitEnv,
                           replies: seq<Transport.Reply>)
      requires requests.loading.Some?
      modifies this, play, play.queue, requests
      ensures State() == old(State()).Admitted(resolution, env, config, replies)
      ensures play.queue == old(play.queue)
    {
      hide Transport.State.StartCurrent, Line.SettleLoading, Enqueue, Playback.Admitted, Session.Tagged;
      if !env.accessAfter {
        requests.SettleLoading(Refused);
        return;
      }
      var tracks := Session.Tagged(resolution.tracks, requests.loading.value.request);
      var starting := play.queue.current.None?;
      var added := play.queue.EnqueueTracks(tracks, config.queueLimit);
      if added == 0 {
        NothingAdmitted(old(play.queue.State()), tracks, config.queueLimit);
        requests.SettleLoading(Refused);
        return;
      }
      requests.SettleLoading(Enqueued);
      play.SetIdle(None);
      if starting {
        var ok := play.StartCurrent(replies);
        if !ok {
          return;
        }
      }
      UpdateAlone(env.alone);
    }

    // ----- the loop of `run` -----

    method Tick(voice: Session.Voice, ready: bool, tookMs: nat, answer: Option<Transport.Snapshot>,
                replies: seq<Transport.Reply>)
      modifies this, play, play.queue, requests, preparer
      ensures State() == old(State()).Tick(Session.Ticked(voice, ready, tookMs, answer), config, replies)
      ensures play.queue == old(play.queue) || fresh(play.queue)
    {
      hide Session.State.Cleanup, Session.State.OnVoice, Transport.State.CheckPlayback;
      OnVoiceChanged(voice);
      if aloneAt.Some? && play.clock >= aloneAt.value + config.aloneMs {
        Cleanup();
        return;
      }
      if play.idleAt.Some? && play.clock >= play.idleAt.value + config.idleMs {
        Cleanup();
        return;
      }
      play.CheckPlayback(ready, tookMs, answer, replies);
    }

    method Handle(event: Session.Event, replies: seq<Transport.Reply>)
      modifies this, play, play.queue, requests, preparer
      ensures State() == old(State()).Handle(event, config, replies)
      ensures play.queue == old(play.queue) || fresh(play.queue)
    {
      hide Session.State.Cleanup, Session.State.OnVoice, Session.State.Control, Session.State.Tick;
      hide Session.State.Commit, Session.State.Admissible, Line.SettleLoading, Line.Admit;
      hide Transport.State.ObserveProgress, Transport.State.Backend, Transport.State.StartCurrent;
      hide Preparation.Prep.PlayerAnswers, Preparation.Prep.Finish;
      match event {
        case Commanded(caller, command) => Control(caller, command, replies);
        case Play(ready, blank, request, access) => PreparePlay(ready, blank, request, access);
        case PlayerUpdated(snapshot) =>
          if channel.Some? {
            play.ObserveProgress(snapshot);
          }
        case TrackEvent(trackEvent) =>
          if channel.Some? {
            play.BackendEvent(trackEvent, replies);
          }
        case VoiceSocketClosed =>
          if channel.Some? {
            Cleanup();
          }
        case VoiceChanged(voice) => OnVoiceChanged(voice);
        case Invalidated => Cleanup();
        case Connected(voice) =>
          if channel.Some? {
            if play.queue.current.None? {
              var _ := play.StartCurrent(replies);
            } else {
              OnVoiceChanged(voice);
            }
          }
        case Loaded(sequence, result, env) =>
          if requests.loading.Some? && requests.loading.value.sequence == sequence {
            Commit(result, env, replies);
          }
        case LoaderPanicked => requests.SettleLoading(Refused);
        case PlayerPrepared(index, success) => preparer.PlayerAnswers(index, success);
        case PreparationDone(index) => preparer.FinishPreparation(index, requests.epoch, play.clock);
        case Ticked(voice, ready, tookMs, answer) => Tick(voice, ready, tookMs, answer, replies);
      }
    }

    /** What ends every turn of the loop: start a load, prepare the next track. */
    method Settle()
      modifies requests, preparer
      ensures State() == old(State()).Settle()
    {
      hide Line.StartLoad, Preparation.Prep.PrepareNext;
      requests.StartLoad();
      var target: Option<string> := None;
      if play.started && !play.paused && channel.Some? {
        var next := play.queue.NextToPrepare(play.Position());
        target := if next.Some? then Some(next.value.encoded) else None;
      }
      preparer.PrepareNext(requests.epoch, target, play.clock);
    }

    method Step(input: Session.Input)
      modifies this, play, play.queue, requests, preparer
      ensures State() == old(State()).Step(input, config)
      ensures play.queue == old(play.queue) || fresh(play.queue)
    {
      hide Session.State.Handle, Session.State.Settle;
      play.Await(input.waitMs);
      Handle(input.event, input.replies);
      Settle();
    }
  }

  /** The actor over any inputs, from its creation. */
  method RunSession(inputs: seq<Session.Input>, config: Session.Config) returns (session: GuildSession)
    ensures session.State() == Session.RunFrom(Session.NEW_SESSION, inputs, config)
  {
    hide Session.State.Step;
    session := new GuildSession(config);
    var i := 0;
    while i < |inputs|
      invariant 0 <= i <= |inputs| && session.config == config
      invariant fresh(session) && fresh(session.play) && fresh(session.play.queue)
      invariant fresh(session.requests) && fresh(session.preparer)
      invariant session.State() == Session.RunFrom(Session.NEW_SESSION, inputs[..i], config)
    {
      assert inputs[..i + 1][..i] == inputs[..i];
      session.Step(inputs[i]);
      i := i + 1;
    }
    assert inputs[..i] == inputs;
  }

  lemma NothingAdmitted(q: QueueState, tracks: seq<Track>, maxTracks: nat)
    ensures Playback.Admitted(q, tracks, maxTracks) == [] ==> Enqueue(q, tracks, maxTracks) == q
  {
    assert q.upcoming + [] == q.upcoming;
  }

  lemma UnmovedQueue(q: QueueState, command: Session.Command, maxTracks: nat)
    ensures !PreviousResult(q, maxTracks).Started? ==> Previous(q, maxTracks) == q
    ensures q.current.None? ==> Skip(q) == q
    ensures command.JumpTo? && !CanJump(q, command.position) ==> Jump(q, command.position) == q
  {}
}
