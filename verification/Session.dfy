/** The guild playback actor of `src/session.rs`: one step per message, with an environment that
    may deliver any event, answer or completion at any time. */
module Session {
  import opened Options
  import opened Playback
  import Transport
  import Admission
  import Preparation
  import Resolver

  datatype Config = Config(queueLimit: nat, pendingLimit: nat, aloneMs: nat, idleMs: nat)

  type Resolution = Resolver.Resolution

  // ----- the environment's part of a step -----

  datatype Command =
    | Pause
    | Resume
    | SetLoop(mode: LoopMode)
    | RemoveTrack(position: nat)
    | MoveTrack(from: nat, to: nat)
    | ClearQueue
    | ShuffleQueue(order: seq<Track>)
    | PlayPrevious
    | JumpTo(position: nat)
    | SkipTrack
    | StopPlayback
    | Leave

  /** Whether the music service is ready, and the caller's voice channel, if it has a usable one. */
  datatype Caller = Caller(ready: bool, channel: Option<nat>)

  /** The cached voice state: the guild, the bot's channel, and whether it is alone there. A
      changed voice server needs an update, which the player answers. */
  datatype Voice = Voice(
    present: bool, available: bool, botChannel: Option<nat>, refresh: Option<Transport.Reply>,
    alone: bool)

  /** The conditions `commit` meets: access before and after joining, and the join itself. */
  datatype CommitEnv = CommitEnv(
    access: bool, joined: Transport.Reply, accessAfter: bool, alone: bool)

  datatype Event =
    | Commanded(caller: Caller, command: Command)
    | Play(ready: bool, blank: bool, request: Admission.Request, access: Option<nat>)
    | PlayerUpdated(snapshot: Transport.Snapshot)
    | TrackEvent(event: Transport.TrackEvent)
    | VoiceSocketClosed
    | VoiceChanged(voice: Voice)
    | Invalidated
    | Connected(voice: Voice)
    | Loaded(sequence: nat, result: Option<Resolution>, env: CommitEnv)
    | LoaderPanicked
    | PlayerPrepared(index: nat, success: bool)
    | PreparationDone(index: nat)
    | Ticked(voice: Voice, ready: bool, tookMs: nat, answer: Option<Transport.Snapshot>)

  /** An event after `waitMs`, with the player's replies to the updates it leads to. */
  datatype Input = Input(waitMs: nat, event: Event, replies: seq<Transport.Reply>)

  // ----- the actor -----

  datatype State = State(
    play: Transport.State,
    line: Admission.Line,
    prep: Preparation.Prep,
    channel: Option<nat>,
    aloneAt: Option<nat>)
  {
    function Start(replies: seq<Transport.Reply>): State {
      this.(play := play.StartCurrent(replies, false).0)
    }

    function Cleanup(): State {
      this.(play := play.Reset(), line := line.Invalidate(), prep := prep.Cleanup(play.now),
            channel := None, aloneAt := None)
    }

    function UpdateAlone(alone: bool): State {
      this.(aloneAt := if channel.Some? && alone
                       then Some(if aloneAt.Some? then aloneAt.value else play.now)
                       else None)
    }

    function OnVoice(voice: Voice): State {
      if channel.None? then this
      else if !voice.present then Cleanup()
      else if !voice.available then this
      else if voice.botChannel != channel then Cleanup()
      else if voice.refresh.None? then UpdateAlone(voice.alone)
      else
        var told := this.(play := play.Elapse(voice.refresh.value.tookMs));
        if voice.refresh.value.accepted then told.UpdateAlone(voice.alone) else told.Cleanup()
    }

    // ----- commands -----

    predicate Permitted(caller: Caller, command: Command) {
      (caller.ready || !NeedsService(command))
      && caller.channel.Some?
      && (if channel.Some? then channel == caller.channel
          else command.StopPlayback? || command.Leave?)
    }

    /** Previous, jump and skip: the queue moves on, and what is then current is started. */
    function MoveOn(queue: QueueState, replies: seq<Transport.Reply>): State {
      this.(play := play.Advance(Transport.Control, queue)).Start(replies)
    }

    function StopNow(ready: bool, replies: seq<Transport.Reply>): State {
      var stopped := this.(line := line.Invalidate(),
                           play := play.(queue := Stop(play.queue), paused := false));
      if channel.None? then stopped
      else if !ready then stopped.(play := stopped.play.(idleAt := Some(stopped.play.now)))
      else
        var started := stopped.Start(replies);
        started.(play := started.play.(idleAt := Some(started.play.now)))
    }

    function Requeue(queue: QueueState): State {
      this.(play := play.(queue := queue))
    }

    function Navigate(command: Command, maxTracks: nat, replies: seq<Transport.Reply>): State {
      match command
      case PlayPrevious =>
        if PreviousResult(play.queue, maxTracks).Started?
        then MoveOn(Previous(play.queue, maxTracks), replies) else this
      case JumpTo(position) =>
        if CanJump(play.queue, position) then MoveOn(Jump(play.queue, position), replies) else this
      case SkipTrack =>
        if play.queue.current.Some? then MoveOn(Skip(play.queue), replies) else this
      case _ => this
    }

    function Control(caller: Caller, command: Command, maxTracks: nat, replies: seq<Transport.Reply>)
      : State
    {
      if !Permitted(caller, command) then this
      else
        match command
        case Pause => this.(play := play.TogglePause(true, FirstReply(replies)))
        case Resume => this.(play := play.TogglePause(false, FirstReply(replies)))
        case PlayPrevious => Navigate(command, maxTracks, replies)
        case JumpTo(_) => Navigate(command, maxTracks, replies)
        case SkipTrack => Navigate(command, maxTracks, replies)
        case StopPlayback => StopNow(caller.ready, replies)
        case Leave => Cleanup()
        case _ => Requeue(Rearranged(play.queue, command))
    }

    // ----- play requests -----

    predicate Admissible(event: Event, config: Config)
      requires event.Play?
    {
      event.ready && !event.blank
      && |line.Waiting()| < config.pendingLimit
      && event.access.Some? && (channel.Some? ==> channel == event.access)
      && play.queue.Len() < config.queueLimit
    }

    function Refuse(): State {
      this.(line := line.SettleLoading(Admission.Refused))
    }

    /** A completed load: its request is enqueued, or refused for the first reason that applies. */
    function Commit(result: Option<Resolution>, env: CommitEnv, config: Config,
                    replies: seq<Transport.Reply>): State
      requires line.loading.Some?
    {
      var pending := line.loading.value;
      if pending.epoch != line.epoch then this.(line := line.SettleLoading(Admission.Cancelled))
      else if result.None? || !env.access then Refuse()
      else if channel.Some? && channel.value != pending.channel then Refuse()
      else if play.queue.Len() >= config.queueLimit then Refuse()
      else if channel.Some? then Admitted(result.value, env, config, replies)
      else
        var joined := this.(play := play.Elapse(env.joined.tookMs));
        if !env.joined.accepted then joined.Refuse().Cleanup()
        else
          joined.(channel := Some(pending.channel),
                  play := joined.play.(idleAt := Some(joined.play.now)))
            .Admitted(result.value, env, config, replies)
    }

    function Admitted(resolution: Resolution, env: CommitEnv, config: Config,
                      replies: seq<Transport.Reply>): State
      requires line.loading.Some?
    {
      var tracks := Tagged(resolution.tracks, line.loading.value.request);
      if !env.accessAfter || Playback.Admitted(play.queue, tracks, config.queueLimit) == [] then Refuse()
      else
        var enqueued :=
          this.(line := line.SettleLoading(Admission.Enqueued),
                play := play.(queue := Enqueue(play.queue, tracks, config.queueLimit), idleAt := None));
        if play.queue.current.Some? then enqueued.UpdateAlone(env.alone)
        else
          var (started, ok) := enqueued.play.StartCurrent(replies, false);
          var after := enqueued.(play := started);
          if ok then after.UpdateAlone(env.alone) else after
    }

    // ----- a whole step -----

    function Tick(event: Event, config: Config, replies: seq<Transport.Reply>): State
      requires event.Ticked?
    {
      var seen := OnVoice(event.voice);
      if seen.aloneAt.Some? && seen.play.now >= seen.aloneAt.value + config.aloneMs then seen.Cleanup()
      else if seen.play.idleAt.Some? && seen.play.now >= seen.play.idleAt.value + config.idleMs
      then seen.Cleanup()
      else seen.(play := seen.play.CheckPlayback(event.ready, event.tookMs, event.answer, replies))
    }

    function Handle(event: Event, config: Config, replies: seq<Transport.Reply>): State {
      match event
      case Commanded(caller, command) => Control(caller, command, config.queueLimit, replies)
      case Play(_, _, request, access) =>
        if Admissible(event, config) then this.(line := line.Admit(request, access.value)) else this
      case PlayerUpdated(snapshot) =>
        if channel.None? then this else this.(play := play.ObserveProgress(snapshot))
      case TrackEvent(trackEvent) =>
        if channel.None? then this else this.(play := play.Backend(trackEvent, replies))
      case VoiceSocketClosed => if channel.None? then this else Cleanup()
      case VoiceChanged(voice) => OnVoice(voice)
      case Invalidated => Cleanup()
      case Connected(voice) =>
        if channel.None? then this
        else if play.queue.current.None? then Start(replies)
        else OnVoice(voice)
      case Loaded(sequence, result, env) =>
        if line.Loading(sequence) then Commit(result, env, config, replies) else this
      case LoaderPanicked => Refuse()
      case PlayerPrepared(index, success) => this.(prep := prep.PlayerAnswers(index, success))
      case PreparationDone(index) => this.(prep := prep.Finish(index, line.epoch, play.now))
      case Ticked(_, _, _, _) => Tick(event, config, replies)
    }

    /** What the next request to the player should say is being prepared. */
    function PreparationGoal(): Option<string> {
      if play.started && !play.paused && channel.Some? then
        var target := PreparationTarget(play.queue, play.Position());
        if target.Some? then Some(target.value.encoded) else None
      else None
    }

    function Settle(): State {
      var loading := this.(line := line.StartLoad());
      loading.(prep := prep.PrepareNext(line.epoch, PreparationGoal(), play.now))
    }

    function Step(input: Input, config: Config): State {
      this.(play := play.Elapse(input.waitMs)).Handle(input.event, config, input.replies).Settle()
    }
  }

  predicate NeedsService(command: Command) {
    command.Pause? || command.Resume? || command.PlayPrevious? || command.SkipTrack? || command.JumpTo?
  }

  function FirstReply(replies: seq<Transport.Reply>): Transport.Reply {
    if replies == [] then Transport.Reply(false, 0) else replies[0]
  }

  /** The commands that only rearrange the queue. */
  function Rearranged(q: QueueState, command: Command): QueueState {
    match command
    case SetLoop(mode) => q.(loopMode := mode)
    case RemoveTrack(position) => Remove(q, position)
    case MoveTrack(from, to) => MoveTo(q, from, to)
    case ClearQueue => Clear(q)
    case ShuffleQueue(order) => Shuffled(q, order)
    case _ => q
  }

  function Shuffled(q: QueueState, order: seq<Track>): QueueState {
    if multiset(order) == multiset(q.upcoming) && |q.upcoming| >= 2 then q.(upcoming := order) else q
  }

  /** The resolved tracks, marked with who asked for them. */
  function Tagged(tracks: seq<Track>, request: Admission.Request): (tagged: seq<Track>)
    ensures |tagged| == |tracks|
  {
    seq(|tracks|, i requires 0 <= i < |tracks| =>
      tracks[i].(requesterId := request.userId, requestedBy := request.displayName))
  }

  const NEW_SESSION := State(
    Transport.NEW_STATE, Admission.NEW_LINE, Preparation.NEW_PREP, None, None)

  function RunFrom(s: State, inputs: seq<Input>, config: Config): State {
    if inputs == [] then s
    else RunFrom(s, inputs[..|inputs| - 1], config).Step(inputs[|inputs| - 1], config)
  }
}
