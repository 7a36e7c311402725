/** What the guild actor of `src/session.rs` keeps over whole runs, whatever its environment does. */
module SessionLaws {
  import opened Options
  import opened Playback
  import QueueLaws
  import Transport
  import TransportLaws
  import opened Admission
  import Preparation
  import opened Session

  ghost predicate SessionOk(s: State, config: Config) {
    TransportLaws.StateOk(s.play, config.queueLimit)
    && LineOk(s.line, config.pendingLimit)
    && Preparation.PrepOk(s.prep)
  }

  /** Settled requests stay as they are, and only requests not yet settled commit from now on. */
  ghost predicate LineGrows(l: Line, after: Line) {
    l.commits <= after.commits && l.sequence <= after.sequence
    && (forall n :: n in l.settled ==> n in after.settled && after.settled[n] == l.settled[n])
    && (forall i :: |l.commits| <= i < |after.commits| ==> after.commits[i] !in l.settled)
  }

  lemma LineGrowsTransitively(a: Line, b: Line, c: Line)
    requires LineGrows(a, b) && LineGrows(b, c)
    ensures LineGrows(a, c)
  {
    forall i | |a.commits| <= i < |c.commits| ensures c.commits[i] !in a.settled {
      if i < |b.commits| {
        assert c.commits[i] == b.commits[i];
      }
    }
  }

  lemma SettleGrows(l: Line, limit: nat, how: Settlement)
    requires LineOk(l, limit)
    ensures LineGrows(l, l.SettleLoading(how))
  {
    if l.loading.Some? {
      LoadedRequestIsCurrent(l, limit, l.loading.value.sequence);
    }
  }

  lemma InvalidateGrows(l: Line, limit: nat)
    requires LineOk(l, limit)
    ensures LineGrows(l, l.Invalidate())
  {
    InvalidateKeepsLine(l, limit);
  }

  /** What may move the queue on in this step. */
  function Causes(s: State, event: Event): set<Transport.Cause> {
    match event
    case Commanded(_, _) => {Transport.Control}
    case TrackEvent(e) =>
      if s.channel.Some? then TransportLaws.EventCauses(s.play, e) else {}
    case Ticked(_, _, _, answer) => TransportLaws.WatchdogCauses(s.play, answer)
    case _ => {}
  }

  /** One step's effect, as every later argument needs it. */
  ghost predicate Good(s: State, after: State, causes: set<Transport.Cause>, config: Config) {
    TransportLaws.Sound(s.play, after.play, causes, config.queueLimit)
    && LineOk(after.line, config.pendingLimit) && LineGrows(s.line, after.line)
    && Preparation.PrepOk(after.prep)
  }

  lemma GoodIsOk(s: State, after: State, causes: set<Transport.Cause>, config: Config)
    requires Good(s, after, causes, config)
    ensures SessionOk(after, config)
  {}

  /** A change that leaves the request line and the preparation alone. */
  lemma PlayChange(s: State, after: State, causes: set<Transport.Cause>, config: Config)
    requires SessionOk(s, config)
    requires TransportLaws.Sound(s.play, after.play, causes, config.queueLimit)
    requires after.line == s.line && after.prep == s.prep
    ensures Good(s, after, causes, config)
  {}

  /** A change of the queue only, that is not an advance. */
  lemma QueueChange(s: State, after: State, causes: set<Transport.Cause>, config: Config)
    requires SessionOk(s, config) && QueueLaws.QueueOk(after.play.queue, config.queueLimit)
    requires (after.play.generation, after.play.progressAt, after.play.log)
             == (s.play.generation, s.play.progressAt, s.play.log)
    requires s.play.now <= after.play.now
    requires LineOk(after.line, config.pendingLimit) && LineGrows(s.line, after.line)
    requires Preparation.PrepOk(after.prep)
    ensures Good(s, after, causes, config)
  {}

  lemma Then(s: State, mid: State, after: State, causes: set<Transport.Cause>, config: Config)
    requires Good(s, mid, {}, config) && Good(mid, after, causes, config)
    requires mid.play.generation == s.play.generation || causes == {}
    ensures Good(s, after, causes, config)
  {
    LineGrowsTransitively(s.line, mid.line, after.line);
    JoinAdvances(s.play, mid.play, after.play, causes);
  }

  lemma JoinAdvances(a: Transport.State, b: Transport.State, c: Transport.State,
                     causes: set<Transport.Cause>)
    requires TransportLaws.OnlyAdvances(a, b, {}) && TransportLaws.OnlyAdvances(b, c, causes)
    requires b.generation == a.generation || causes == {}
    ensures TransportLaws.OnlyAdvances(a, c, causes)
  {
    forall i | |a.log| <= i < |c.log| && c.log[i].Advanced?
      ensures c.log[i].cause.StartRefused?
              || (c.log[i].cause in causes && c.log[i].generation == a.generation)
    {
      if i < |b.log| {
        assert c.log[i] == b.log[i];
      }
    }
  }

  lemma NoChange(s: State, config: Config)
    requires SessionOk(s, config)
    ensures forall causes :: Good(s, s, causes, config)
  {}

  lemma CleanupIsGood(s: State, config: Config)
    requires SessionOk(s, config)
    ensures forall causes :: Good(s, s.Cleanup(), causes, config)
  {
    hide TransportLaws.LogOk, LineOk, LineGrows;
    InvalidateKeepsLine(s.line, config.pendingLimit);
    InvalidateGrows(s.line, config.pendingLimit);
    forall causes ensures Good(s, s.Cleanup(), causes, config) {
      assert QueueLaws.QueueOk(EMPTY_QUEUE, config.queueLimit);
      ResetKeepsLog(s.play);
      QueueChange(s, s.Cleanup(), causes, config);
    }
  }

  lemma ResetKeepsLog(t: Transport.State)
    ensures (t.Reset().generation, t.Reset().progressAt, t.Reset().log, t.Reset().now)
            == (t.generation, t.progressAt, t.log, t.now)
  {}

  lemma OnVoiceIsGood(s: State, voice: Voice, config: Config)
    requires SessionOk(s, config)
    ensures Good(s, s.OnVoice(voice), {}, config)
    ensures s.OnVoice(voice).play.generation == s.play.generation
  {
    hide TransportLaws.LogOk, LineOk, LineGrows, Good;
    NoChange(s, config);
    CleanupIsGood(s, config);
    UpdateAloneIsGood(s, voice.alone, config);
    if voice.refresh.Some? {
      var told := s.(play := s.play.Elapse(voice.refresh.value.tookMs));
      ElapseIsGood(s, voice.refresh.value.tookMs, config);
      GoodIsOk(s, told, {}, config);
      CleanupIsGood(told, config);
      UpdateAloneIsGood(told, voice.alone, config);
      Then(s, told, told.Cleanup(), {}, config);
      Then(s, told, told.UpdateAlone(voice.alone), {}, config);
    }
  }

  lemma UpdateAloneIsGood(s: State, alone: bool, config: Config)
    requires SessionOk(s, config)
    ensures Good(s, s.UpdateAlone(alone), {}, config)
  {}

  lemma ElapseIsGood(s: State, ms: nat, config: Config)
    requires SessionOk(s, config)
    ensures Good(s, s.(play := s.play.Elapse(ms)), {}, config)
  {}

  // ----- commands -----

  lemma MoveOnIsGood(s: State, queue: QueueState, replies: seq<Transport.Reply>, config: Config)
    requires SessionOk(s, config) && QueueLaws.QueueOk(queue, config.queueLimit)
    ensures Good(s, s.MoveOn(queue, replies), {Transport.Control}, config)
  {
    hide TransportLaws.LogOk, TransportLaws.Sound, QueueLaws.QueueOk, Transport.State.StartCurrent;
    TransportLaws.MoveIsSound(s.play, Transport.Control, queue, replies, config.queueLimit);
    PlayChange(s, s.MoveOn(queue, replies), {Transport.Control}, config);
  }

  lemma StartIsGood(s: State, replies: seq<Transport.Reply>, config: Config)
    requires SessionOk(s, config)
    ensures Good(s, s.Start(replies), {}, config)
    ensures Good(s, s.Start(replies).(play := s.Start(replies).play.(idleAt := Some(s.Start(replies).play.now))),
                 {}, config)
  {
    hide Transport.State.StartCurrent;
    var started := s.Start(replies);
    TransportLaws.StartIsSound(s.play, replies, false, config.queueLimit);
  }

  lemma StopIsGood(s: State, ready: bool, replies: seq<Transport.Reply>, config: Config)
    requires SessionOk(s, config)
    ensures Good(s, s.StopNow(ready, replies), {}, config)
    ensures s.StopNow(ready, replies).line == s.line.Invalidate()
  {
    hide TransportLaws.LogOk, LineOk, LineGrows, Transport.State.StartCurrent, Good;
    var stopped := s.(line := s.line.Invalidate(),
                      play := s.play.(queue := Stop(s.play.queue), paused := false));
    InvalidateKeepsLine(s.line, config.pendingLimit);
    InvalidateGrows(s.line, config.pendingLimit);
    QueueLaws.ApplyKeepsQueueOk(s.play.queue, QueueLaws.DoStop, config.queueLimit);
    QueueChange(s, stopped, {}, config);
    GoodIsOk(s, stopped, {}, config);
    StartIsGood(stopped, replies, config);
    var started := stopped.Start(replies);
    Then(s, stopped, started.(play := started.play.(idleAt := Some(started.play.now))), {}, config);
    IdleIsGood(stopped, stopped.play.now, config);
    Then(s, stopped, stopped.(play := stopped.play.(idleAt := Some(stopped.play.now))), {}, config);
  }

  lemma IdleIsGood(s: State, at: nat, config: Config)
    requires SessionOk(s, config)
    ensures Good(s, s.(play := s.play.(idleAt := Some(at))), {}, config)
  {}

  lemma RequeueIsGood(s: State, queue: QueueState, config: Config)
    requires SessionOk(s, config) && QueueLaws.QueueOk(queue, config.queueLimit)
    ensures forall causes :: Good(s, s.Requeue(queue), causes, config)
  {}

  lemma WiderCauses(s: State, after: State, causes: set<Transport.Cause>, config: Config)
    requires Good(s, after, {}, config)
    ensures Good(s, after, causes, config)
  {}

  lemma CommandIsGood(s: State, caller: Caller, command: Command, replies: seq<Transport.Reply>, config: Config)
    requires SessionOk(s, config)
    ensures Good(s, s.Control(caller, command, config.queueLimit, replies), {Transport.Control}, config)
  {
    hide TransportLaws.LogOk, LineOk, LineGrows, Good, State.Permitted, State.StopNow, State.Navigate;
    hide State.Requeue, State.Cleanup, Transport.State.TogglePause, Rearranged;
    NoChange(s, config);
    match command
    case Pause => PauseIsGood(s, true, FirstReply(replies), config);
    case Resume => PauseIsGood(s, false, FirstReply(replies), config);
    case PlayPrevious => NavigateIsGood(s, command, replies, config);
    case JumpTo(_) => NavigateIsGood(s, command, replies, config);
    case SkipTrack => NavigateIsGood(s, command, replies, config);
    case StopPlayback =>
      StopIsGood(s, caller.ready, replies, config);
      WiderCauses(s, s.StopNow(caller.ready, replies), {Transport.Control}, config);
    case Leave => CleanupIsGood(s, config);
    case _ => RearrangeIsGood(s, command, config);
  }

  lemma NavigateIsGood(s: State, command: Command, replies: seq<Transport.Reply>, config: Config)
    requires SessionOk(s, config)
    ensures Good(s, s.Navigate(command, config.queueLimit, replies), {Transport.Control}, config)
  {
    hide TransportLaws.LogOk, LineOk, LineGrows, Good, State.MoveOn, QueueLaws.QueueOk;
    hide Jump, Skip, Previous, PreviousResult;
    NoChange(s, config);
    match command
    case PlayPrevious => MoveStep(s, QueueLaws.DoPrevious, replies, config);
    case JumpTo(position) => MoveStep(s, QueueLaws.DoJump(position), replies, config);
    case SkipTrack => MoveStep(s, QueueLaws.DoSkip, replies, config);
    case _ =>
  }

  lemma RearrangeIsGood(s: State, command: Command, config: Config)
    requires SessionOk(s, config)
    ensures Good(s, s.Requeue(Rearranged(s.play.queue, command)), {Transport.Control}, config)
  {
    hide TransportLaws.LogOk, LineOk, LineGrows, Good, State.Requeue, QueueLaws.QueueOk;
    hide Remove, MoveTo, Clear;
    RequeueIsGood(s, s.play.queue, config);
    match command
    case SetLoop(mode) => QueueStep(s, QueueLaws.DoLoop(mode), config);
    case RemoveTrack(position) => QueueStep(s, QueueLaws.DoRemove(position), config);
    case MoveTrack(from, to) => QueueStep(s, QueueLaws.DoMove(from, to), config);
    case ClearQueue => QueueStep(s, QueueLaws.DoClear, config);
    case ShuffleQueue(order) => ShuffleStep(s, order, config);
    case _ =>
  }

  lemma QueueStep(s: State, op: QueueLaws.QueueOp, config: Config)
    requires SessionOk(s, config)
    ensures Good(s, s.Requeue(QueueLaws.Apply(s.play.queue, op, config.queueLimit)),
                 {Transport.Control}, config)
  {
    hide TransportLaws.LogOk, LineOk, LineGrows, Good, State.Requeue, QueueLaws.QueueOk, QueueLaws.Apply;
    QueueLaws.ApplyKeepsQueueOk(s.play.queue, op, config.queueLimit);
    RequeueIsGood(s, QueueLaws.Apply(s.play.queue, op, config.queueLimit), config);
  }

  lemma MoveStep(s: State, op: QueueLaws.QueueOp, replies: seq<Transport.Reply>, config: Config)
    requires SessionOk(s, config)
    ensures Good(s, s.MoveOn(QueueLaws.Apply(s.play.queue, op, config.queueLimit), replies),
                 {Transport.Control}, config)
  {
    hide TransportLaws.LogOk, LineOk, LineGrows, Good, State.MoveOn, QueueLaws.QueueOk, QueueLaws.Apply;
    QueueLaws.ApplyKeepsQueueOk(s.play.queue, op, config.queueLimit);
    MoveOnIsGood(s, QueueLaws.Apply(s.play.queue, op, config.queueLimit), replies, config);
  }

  lemma ShuffleStep(s: State, order: seq<Track>, config: Config)
    requires SessionOk(s, config)
    ensures Good(s, s.Requeue(Shuffled(s.play.queue, order)), {Transport.Control}, config)
  {
    QueueStep(s, QueueLaws.DoShuffle(order), config);
    RequeueIsGood(s, s.play.queue, config);
  }

  lemma PauseIsGood(s: State, pause: bool, reply: Transport.Reply, config: Config)
    requires SessionOk(s, config)
    ensures Good(s, s.(play := s.play.TogglePause(pause, reply)), {Transport.Control}, config)
  {
    hide Good, TransportLaws.Sound, Transport.State.TogglePause;
    TransportLaws.PauseIsSound(s.play, pause, reply, config.queueLimit);
    var after := s.(play := s.play.TogglePause(pause, reply));
    PlayChange(s, after, {}, config);
    WiderCauses(s, after, {Transport.Control}, config);
  }

  // ----- commits -----

  lemma RefuseIsGood(s: State, how: Settlement, config: Config)
    requires SessionOk(s, config)
    ensures Good(s, s.(line := s.line.SettleLoading(how)), {}, config)
  {
    hide TransportLaws.LogOk, LineOk, LineGrows;
    SettleKeepsLine(s.line, config.pendingLimit, how);
    SettleGrows(s.line, config.pendingLimit, how);
    QueueChange(s, s.(line := s.line.SettleLoading(how)), {}, config);
  }

  lemma AdmittedIsGood(s: State, resolution: Resolution, env: CommitEnv, config: Config,
                       replies: seq<Transport.Reply>)
    requires SessionOk(s, config) && s.line.loading.Some?
    ensures Good(s, s.Admitted(resolution, env, config, replies), {}, config)
  {
    hide TransportLaws.LogOk, LineOk, LineGrows, Good, Enqueue, Playback.Admitted, Tagged;
    hide Transport.State.StartCurrent;
    RefuseIsGood(s, Refused, config);
    var tracks := Tagged(resolution.tracks, s.line.loading.value.request);
    if env.accessAfter && Playback.Admitted(s.play.queue, tracks, config.queueLimit) != [] {
      var enqueued :=
        s.(line := s.line.SettleLoading(Enqueued),
           play := s.play.(queue := Enqueue(s.play.queue, tracks, config.queueLimit), idleAt := None));
      SettleKeepsLine(s.line, config.pendingLimit, Enqueued);
      SettleGrows(s.line, config.pendingLimit, Enqueued);
      QueueLaws.ApplyKeepsQueueOk(s.play.queue, QueueLaws.DoEnqueue(tracks), config.queueLimit);
      QueueChange(s, enqueued, {}, config);
      GoodIsOk(s, enqueued, {}, config);
      UpdateAloneIsGood(enqueued, env.alone, config);
      Then(s, enqueued, enqueued.UpdateAlone(env.alone), {}, config);
      var after := enqueued.Start(replies);
      StartIsGood(enqueued, replies, config);
      Then(s, enqueued, after, {}, config);
      GoodIsOk(s, after, {}, config);
      UpdateAloneIsGood(after, env.alone, config);
      Then(s, after, after.UpdateAlone(env.alone), {}, config);
    }
  }

  lemma CommitIsGood(s: State, result: Option<Resolution>, env: CommitEnv, config: Config,
                     replies: seq<Transport.Reply>)
    requires SessionOk(s, config) && s.line.loading.Some?
    ensures Good(s, s.Commit(result, env, config, replies), {}, config)
  {
    hide TransportLaws.LogOk, LineOk, LineGrows, Good, State.Admitted, State.Cleanup;
    RefuseIsGood(s, Refused, config);
    RefuseIsGood(s, Cancelled, config);
    if result.Some? {
      AdmittedIsGood(s, result.value, env, config, replies);
      JoinIsGood(s, result.value, env, config, replies);
    }
  }

  lemma JoinIsGood(s: State, resolution: Resolution, env: CommitEnv, config: Config,
                   replies: seq<Transport.Reply>)
    requires SessionOk(s, config) && s.line.loading.Some?
    ensures var waited := s.(play := s.play.Elapse(env.joined.tookMs));
            var joined := waited.(channel := Some(s.line.loading.value.channel),
                                  play := waited.play.(idleAt := Some(waited.play.now)));
            Good(s, waited.Refuse().Cleanup(), {}, config)
            && Good(s, joined.Admitted(resolution, env, config, replies), {}, config)
  {
    hide TransportLaws.LogOk, LineOk, LineGrows, Good, State.Admitted, State.Cleanup;
    var waited := s.(play := s.play.Elapse(env.joined.tookMs));
    ElapseIsGood(s, env.joined.tookMs, config);
    GoodIsOk(s, waited, {}, config);
    RefuseIsGood(waited, Refused, config);
    GoodIsOk(waited, waited.Refuse(), {}, config);
    CleanupIsGood(waited.Refuse(), config);
    Then(waited, waited.Refuse(), waited.Refuse().Cleanup(), {}, config);
    Then(s, waited, waited.Refuse().Cleanup(), {}, config);
    var joined := waited.(channel := Some(s.line.loading.value.channel),
                          play := waited.play.(idleAt := Some(waited.play.now)));
    JoinedIsGood(waited, s.line.loading.value.channel, config);
    GoodIsOk(waited, joined, {}, config);
    AdmittedIsGood(joined, resolution, env, config, replies);
    Then(waited, joined, joined.Admitted(resolution, env, config, replies), {}, config);
    Then(s, waited, joined.Admitted(resolution, env, config, replies), {}, config);
  }

  lemma JoinedIsGood(s: State, channel: nat, config: Config)
    requires SessionOk(s, config)
    ensures Good(s, s.(channel := Some(channel), play := s.play.(idleAt := Some(s.play.now))), {}, config)
  {}

  // ----- ticks and steps -----

  lemma TickIsGood(s: State, event: Event, config: Config, replies: seq<Transport.Reply>)
    requires SessionOk(s, config) && event.Ticked?
    ensures Good(s, s.Tick(event, config, replies), Causes(s, event), config)
  {
    hide TransportLaws.LogOk, LineOk, LineGrows, Good, State.OnVoice, State.Cleanup;
    hide Transport.State.CheckPlayback, TransportLaws.Sound;
    var seen := s.OnVoice(event.voice);
    OnVoiceIsGood(s, event.voice, config);
    GoodIsOk(s, seen, {}, config);
    CleanupIsGood(seen, config);
    Then(s, seen, seen.Cleanup(), Causes(s, event), config);
    TransportLaws.CheckIsSound(seen.play, event.ready, event.tookMs, event.answer, replies,
                               config.queueLimit);
    var checked := seen.(play := seen.play.CheckPlayback(event.ready, event.tookMs, event.answer, replies));
    PlayChange(seen, checked, Causes(s, event), config);
    Then(s, seen, checked, Causes(s, event), config);
  }

  lemma HandleIsGood(s: State, event: Event, config: Config, replies: seq<Transport.Reply>)
    requires SessionOk(s, config)
    ensures Good(s, s.Handle(event, config, replies), Causes(s, event), config)
  {
    hide TransportLaws.LogOk, LineOk, LineGrows, Good, State.OnVoice, State.Cleanup, State.Commit;
    hide State.Tick, State.Control, State.Start, TransportLaws.Sound, Causes;
    hide Transport.State.ObserveProgress, Transport.State.Backend, State.Admissible;
    NoChange(s, config);
    match event
    case Commanded(caller, command) => CommandCauses(s, caller, command, replies, config);
    case Play(_, _, request, access) => AdmitIsGood(s, event, config);
    case PlayerUpdated(snapshot) => ObserveStep(s, snapshot, config);
    case TrackEvent(e) => BackendStep(s, e, replies, config);
    case VoiceSocketClosed => CleanupIsGood(s, config);
    case VoiceChanged(voice) => OnVoiceIsGood(s, voice, config); NoCauses(s, event);
    case Invalidated => CleanupIsGood(s, config);
    case Connected(voice) =>
      OnVoiceIsGood(s, voice, config);
      StartIsGood(s, replies, config);
      NoCauses(s, event);
    case Loaded(sequence, result, env) =>
      if s.line.Loading(sequence) {
        CommitIsGood(s, result, env, config, replies);
      }
      NoCauses(s, event);
    case LoaderPanicked => RefuseIsGood(s, Refused, config); NoCauses(s, event);
    case PlayerPrepared(index, success) => PrepStep(s, s.prep.PlayerAnswers(index, success), config);
    case PreparationDone(index) =>
      PrepStep(s, s.prep.Finish(index, s.line.epoch, s.play.now), config);
    case Ticked(_, _, _, _) => TickIsGood(s, event, config, replies);
  }

  lemma NoCauses(s: State, event: Event)
    requires !event.Commanded? && !event.TrackEvent? && !event.Ticked?
    ensures Causes(s, event) == {}
  {}

  lemma CommandCauses(s: State, caller: Caller, command: Command, replies: seq<Transport.Reply>, config: Config)
    requires SessionOk(s, config)
    ensures Good(s, s.Handle(Commanded(caller, command), config, replies),
                 Causes(s, Commanded(caller, command)), config)
  {
    hide Good, State.Control;
    CommandIsGood(s, caller, command, replies, config);
  }

  lemma AdmitIsGood(s: State, event: Event, config: Config)
    requires SessionOk(s, config) && event.Play?
    ensures s.Admissible(event, config) ==>
              forall causes ::
                Good(s, s.(line := s.line.Admit(event.request, event.access.value)), causes, config)
  {
    hide TransportLaws.LogOk, LineOk;
    if s.Admissible(event, config) {
      AdmitKeepsLine(s.line, config.pendingLimit, event.request, event.access.value);
      var after := s.(line := s.line.Admit(event.request, event.access.value));
      forall causes ensures Good(s, after, causes, config) {
        QueueChange(s, after, causes, config);
      }
    }
  }

  lemma ObserveStep(s: State, snapshot: Transport.Snapshot, config: Config)
    requires SessionOk(s, config)
    ensures Good(s, s.(play := s.play.ObserveProgress(snapshot)), Causes(s, PlayerUpdated(snapshot)), config)
  {
    hide Good, TransportLaws.Sound, Transport.State.ObserveProgress;
    TransportLaws.ObserveIsSound(s.play, snapshot, config.queueLimit);
    PlayChange(s, s.(play := s.play.ObserveProgress(snapshot)), {}, config);
  }

  lemma BackendStep(s: State, e: Transport.TrackEvent, replies: seq<Transport.Reply>, config: Config)
    requires SessionOk(s, config)
    ensures s.channel.Some? ==>
              Good(s, s.(play := s.play.Backend(e, replies)), Causes(s, Event.TrackEvent(e)), config)
  {
    hide Good, TransportLaws.Sound, Transport.State.Backend;
    TransportLaws.BackendIsSound(s.play, e, replies, config.queueLimit);
    PlayChange(s, s.(play := s.play.Backend(e, replies)), TransportLaws.EventCauses(s.play, e), config);
  }

  lemma PrepStep(s: State, prep: Preparation.Prep, config: Config)
    requires SessionOk(s, config) && Preparation.PrepOk(prep)
    ensures forall causes :: Good(s, s.(prep := prep), causes, config)
  {}

  lemma SettleIsGood(s: State, config: Config)
    requires SessionOk(s, config)
    ensures Good(s, s.Settle(), {}, config)
    ensures s.Settle().play == s.play && s.Settle().line == s.line.StartLoad()
  {
    hide TransportLaws.LogOk, LineOk, State.PreparationGoal;
    StartLoadKeepsLine(s.line, config.pendingLimit);
    QueueChange(s, s.Settle(), {}, config);
  }

  /** Every step keeps the session's invariant, and moves the queue on only for its own cause. */
  lemma StepIsGood(s: State, input: Input, config: Config)
    requires SessionOk(s, config)
    ensures Good(s, s.Step(input, config), Causes(s, input.event), config)
  {
    hide TransportLaws.LogOk, LineOk, LineGrows, Good, State.Handle, State.Settle;
    var waited := s.(play := s.play.Elapse(input.waitMs));
    ElapseIsGood(s, input.waitMs, config);
    GoodIsOk(s, waited, {}, config);
    HandleIsGood(waited, input.event, config, input.replies);
    var handled := waited.Handle(input.event, config, input.replies);
    SameCauses(s, input.event, input.waitMs);
    Then(s, waited, handled, Causes(s, input.event), config);
    GoodIsOk(s, handled, Causes(s, input.event), config);
    SettleIsGood(handled, config);
    AndThen(s, handled, handled.Settle(), Causes(s, input.event), config);
  }

  lemma SameCauses(s: State, event: Event, ms: nat)
    ensures Causes(s.(play := s.play.Elapse(ms)), event) == Causes(s, event)
  {}

  lemma AndThen(s: State, mid: State, after: State, causes: set<Transport.Cause>, config: Config)
    requires Good(s, mid, causes, config) && Good(mid, after, {}, config)
    requires after.play == mid.play
    ensures Good(s, after, causes, config)
  {
    LineGrowsTransitively(s.line, mid.line, after.line);
  }

  // ----- whole runs -----

  lemma NewSessionIsOk(config: Config)
    ensures SessionOk(NEW_SESSION, config)
  {}

  /** The invariant holds after any inputs whatsoever, and what was settled stays settled. */
  lemma {:induction false} RunKeepsSession(s: State, inputs: seq<Input>, config: Config)
    requires SessionOk(s, config)
    ensures SessionOk(RunFrom(s, inputs, config), config)
    ensures LineGrows(s.line, RunFrom(s, inputs, config).line)
    ensures s.play.generation <= RunFrom(s, inputs, config).play.generation
    ensures s.play.log <= RunFrom(s, inputs, config).play.log
  {
    hide State.Step, Causes, LineOk, TransportLaws.LogOk;
    if inputs != [] {
      var n := |inputs| - 1;
      RunKeepsSession(s, inputs[..n], config);
      var mid := RunFrom(s, inputs[..n], config);
      StepIsGood(mid, inputs[n], config);
      GoodIsOk(mid, mid.Step(inputs[n], config), Causes(mid, inputs[n].event), config);
      LineGrowsTransitively(s.line, mid.line, mid.Step(inputs[n], config).line);
    }
  }

  /** In every run: the queue stays in its bounds, waiting requests within the limit, at most one
      preparation request is out, and the player's intent is known when none is. */
  lemma ReachableSession(inputs: seq<Input>, config: Config)
    ensures var s := RunFrom(NEW_SESSION, inputs, config);
            QueueLaws.QueueOk(s.play.queue, config.queueLimit)
            && |s.line.Waiting()| <= config.pendingLimit
            && |s.prep.inFlight| <= 1
            && (s.prep.inFlight == [] ==> s.prep.live == s.prep.target)
  {
    NewSessionIsOk(config);
    RunKeepsSession(NEW_SESSION, inputs, config);
  }

  /** Each generation moves the queue on at most once, for whatever cause. */
  lemma EachGenerationAdvancesOnce(inputs: seq<Input>, config: Config, i: nat, j: nat)
    requires var log := RunFrom(NEW_SESSION, inputs, config).play.log;
             i < j < |log| && log[i].Advanced? && log[j].Advanced?
    ensures var log := RunFrom(NEW_SESSION, inputs, config).play.log;
            log[i].generation < log[j].generation
  {
    NewSessionIsOk(config);
    RunKeepsSession(NEW_SESSION, inputs, config);
  }

  /** A watchdog that acts without a terminal record has seen no sign of that generation, neither
      its start nor any growth of its position, for 60 s (90 s without a usable snapshot). */
  lemma WatchdogActsOnlyOnSilence(inputs: seq<Input>, config: Config, i: nat, j: nat)
    requires var log := RunFrom(NEW_SESSION, inputs, config).play.log;
             i < |log| && j < |log| && log[i].Advanced? && log[j].Sign?
             && log[i].generation == log[j].generation
    ensures var log := RunFrom(NEW_SESSION, inputs, config).play.log;
            (log[i].cause.WatchdogStalled? ==> log[j].at + 60_000 <= log[i].at)
            && (log[i].cause.WatchdogUnverified? ==> log[j].at + 90_000 <= log[i].at)
  {
    NewSessionIsOk(config);
    RunKeepsSession(NEW_SESSION, inputs, config);
  }

  /** The evidence an event carries that generation `g` ended naturally. */
  predicate SaysFinished(event: Event, g: nat) {
    (event.TrackEvent? && event.event.generation == Some(g)
     && event.event.kind == Transport.TrackEnd("finished"))
    || (event.Ticked? && event.answer.Some? && event.answer.value.trackIsNull
        && event.answer.value.terminalGeneration == Some(g)
        && event.answer.value.terminalReason == Some("finished"))
  }

  /** A natural finish is logged only by a step whose event says so of the generation playing. */
  lemma FinishNeedsEvidence(s: State, input: Input, config: Config, i: nat)
    requires SessionOk(s, config)
    requires var log := s.Step(input, config).play.log;
             |s.play.log| <= i < |log| && log[i].Advanced?
             && (log[i].cause.FinishedEvent? || log[i].cause.WatchdogFinished?)
    ensures s.Step(input, config).play.log[i].generation == s.play.generation
    ensures SaysFinished(input.event, s.play.generation)
  {
    hide State.Step, TransportLaws.LogOk, LineOk, LineGrows;
    StepIsGood(s, input, config);
  }

  /** A track event of an older generation does nothing, however late or often it arrives. */
  lemma LateEventsAreInert(s: State, inputs: seq<Input>, config: Config, event: Transport.TrackEvent,
                           replies: seq<Transport.Reply>)
    requires SessionOk(s, config)
    requires event.generation.Some? && event.generation.value < s.play.generation
    ensures var later := RunFrom(s, inputs, config);
            later.Handle(TrackEvent(event), config, replies) == later
  {
    RunKeepsSession(s, inputs, config);
  }

  // ----- play requests over runs -----

  /** The steps that draw the line: a permitted stop or leave, a closed voice socket, and a lost
      music service. */
  predicate DrawsTheLine(s: State, event: Event) {
    (event.Commanded? && s.Permitted(event.caller, event.command)
     && (event.command.StopPlayback? || event.command.Leave?))
    || (event.VoiceSocketClosed? && s.channel.Some?)
    || event.Invalidated?
  }

  lemma LineIsDrawn(s: State, input: Input, config: Config)
    requires SessionOk(s, config) && DrawsTheLine(s, input.event)
    ensures s.Step(input, config).line == s.line.Invalidate()
  {
    hide TransportLaws.LogOk, LineOk, LineGrows, Good, State.Handle, Line.Invalidate;
    var waited := s.(play := s.play.Elapse(input.waitMs));
    ElapseIsGood(s, input.waitMs, config);
    GoodIsOk(s, waited, {}, config);
    HandleDraws(waited, input.event, config, input.replies);
    var handled := waited.Handle(input.event, config, input.replies);
    HandleIsGood(waited, input.event, config, input.replies);
    GoodIsOk(waited, handled, Causes(waited, input.event), config);
    SettleIsGood(handled, config);
    NothingToLoad(s.line);
  }

  lemma HandleDraws(s: State, event: Event, config: Config, replies: seq<Transport.Reply>)
    requires SessionOk(s, config) && DrawsTheLine(s, event)
    ensures s.Handle(event, config, replies).line == s.line.Invalidate()
  {
    hide TransportLaws.LogOk, LineOk, Good, Line.Invalidate, State.StopNow;
    if event.Commanded? && event.command.StopPlayback? {
      StopIsGood(s, event.caller.ready, replies, config);
    }
  }

  lemma NothingToLoad(l: Line)
    ensures l.Invalidate().StartLoad() == l.Invalidate()
  {}

  /** Everything waiting at such a step is cancelled, and stays so. */
  lemma StopCancelsWhatWaits(s: State, input: Input, inputs: seq<Input>, config: Config)
    requires SessionOk(s, config) && DrawsTheLine(s, input.event)
    ensures s.line.epoch < s.Step(input, config).line.epoch
    ensures var later := RunFrom(s.Step(input, config), inputs, config).line;
            forall p :: p in s.line.Waiting() ==>
              p.sequence in later.settled && later.settled[p.sequence].Cancelled?
  {
    hide State.Step, TransportLaws.LogOk, Causes, TransportLaws.Sound;
    var stopped := s.Step(input, config);
    LineIsDrawn(s, input, config);
    InvalidateKeepsLine(s.line, config.pendingLimit);
    StepIsGood(s, input, config);
    GoodIsOk(s, stopped, Causes(s, input.event), config);
    RunKeepsSession(stopped, inputs, config);
    var later := RunFrom(stopped, inputs, config).line;
    forall p | p in s.line.Waiting()
      ensures p.sequence in later.settled && later.settled[p.sequence].Cancelled?
    {
      assert p.sequence in stopped.line.settled;
    }
  }

  /** The line is drawn: a new epoch, nothing waits, and nothing was admitted or committed. */
  ghost predicate Drawn(l: Line, after: Line) {
    l.epoch < after.epoch && after.Waiting() == [] && after.commits == l.commits && after.sequence == l.sequence
  }

  ghost predicate SameEpochOrDrawn(l: Line, after: Line) {
    after.epoch == l.epoch || Drawn(l, after)
  }

  lemma CleanupDraws(s: State)
    ensures Drawn(s.line, s.Cleanup().line)
  {}

  lemma VoiceDraws(s: State, voice: Voice)
    ensures s.OnVoice(voice).line == s.line || Drawn(s.line, s.OnVoice(voice).line)
  {}

  lemma TickDraws(s: State, event: Event, config: Config, replies: seq<Transport.Reply>)
    requires event.Ticked?
    ensures SameEpochOrDrawn(s.line, s.Tick(event, config, replies).line)
  {
    hide State.OnVoice, State.Cleanup, Transport.State.CheckPlayback;
    VoiceDraws(s, event.voice);
    CleanupDraws(s.OnVoice(event.voice));
  }

  lemma CommandDraws(s: State, caller: Caller, command: Command, replies: seq<Transport.Reply>, config: Config)
    ensures SameEpochOrDrawn(s.line, s.Control(caller, command, config.queueLimit, replies).line)
  {
    hide Transport.State.StartCurrent, Transport.State.TogglePause, Rearranged, State.Permitted;
  }

  lemma CommitDraws(s: State, result: Option<Resolution>, env: CommitEnv, config: Config,
                    replies: seq<Transport.Reply>)
    requires s.line.loading.Some?
    ensures SameEpochOrDrawn(s.line, s.Commit(result, env, config, replies).line)
  {
    hide Transport.State.StartCurrent, Enqueue, Playback.Admitted, Tagged;
  }

  lemma HandleSometimesDraws(s: State, event: Event, config: Config, replies: seq<Transport.Reply>)
    ensures SameEpochOrDrawn(s.line, s.Handle(event, config, replies).line)
  {
    hide State.OnVoice, State.Cleanup, State.Commit, State.Tick, State.Control, State.Admissible;
    hide Transport.State.StartCurrent, Transport.State.ObserveProgress, Transport.State.Backend;
    CleanupDraws(s);
    match event
    case Commanded(caller, command) => CommandDraws(s, caller, command, replies, config);
    case VoiceChanged(voice) => VoiceDraws(s, voice);
    case Connected(voice) => VoiceDraws(s, voice);
    case Loaded(sequence, result, env) =>
      if s.line.Loading(sequence) {
        CommitDraws(s, result, env, config, replies);
      }
    case Ticked(_, _, _, _) => TickDraws(s, event, config, replies);
    case _ =>
  }

  lemma StepSometimesDraws(s: State, input: Input, config: Config)
    ensures SameEpochOrDrawn(s.line, s.Step(input, config).line)
  {
    hide State.Handle;
    HandleSometimesDraws(s.(play := s.play.Elapse(input.waitMs)), input.event, config, input.replies);
  }

  /** Whatever step begins a new epoch, a stop, a leave or any cleanup: nothing admitted before it ever
      enqueues after it. Every later commit has a later number than any request admitted so far, and
      everything then waiting is settled without being enqueued. */
  lemma StopIsABarrier(s: State, input: Input, inputs: seq<Input>, config: Config)
    requires SessionOk(s, config) && s.line.epoch < s.Step(input, config).line.epoch
    ensures var later := RunFrom(s.Step(input, config), inputs, config).line;
            s.line.commits <= later.commits
            && (forall i :: |s.line.commits| <= i < |later.commits| ==>
                  later.commits[i] > s.line.sequence)
            && (forall p :: p in s.line.Waiting() ==>
                  p.sequence in later.settled && !later.settled[p.sequence].Enqueued?)
  {
    hide State.Step, TransportLaws.LogOk, Causes, TransportLaws.Sound;
    var stopped := s.Step(input, config);
    StepSometimesDraws(s, input, config);
    StepIsGood(s, input, config);
    GoodIsOk(s, stopped, Causes(s, input.event), config);
    RunKeepsSession(stopped, inputs, config);
    var later := RunFrom(stopped, inputs, config).line;
    forall i | |s.line.commits| <= i < |later.commits| ensures later.commits[i] > s.line.sequence {
      assert later.commits[i] in later.commits;
    }
    forall p | p in s.line.Waiting()
      ensures p.sequence in later.settled && !later.settled[p.sequence].Enqueued?
    {
      assert Waits(s.line, p.sequence);
      EveryRequestIsAccountedFor(s.line, config.pendingLimit, p.sequence);
      assert p.sequence in stopped.line.settled;
    }
  }

  // ----- a stop and the preparation in flight -----

  predicate PermittedStop(s: State, event: Event) {
    event.Commanded? && event.command.StopPlayback? && s.Permitted(event.caller, event.command)
  }

  /** After a permitted stop nothing is to be prepared. */
  lemma StopLeavesNoGoal(s: State, event: Event, config: Config, replies: seq<Transport.Reply>)
    requires PermittedStop(s, event)
    ensures var stopped := s.Handle(event, config, replies);
            stopped.PreparationGoal() == None && stopped.play.queue.current.None?
            && stopped.prep == s.prep && s.line.epoch < stopped.line.epoch
  {
    hide Transport.State.StartCurrent;
    var emptied := s.play.(queue := Stop(s.play.queue), paused := false);
    EmptyStaysEmpty(emptied, replies);
  }

  lemma EmptyStaysEmpty(t: Transport.State, replies: seq<Transport.Reply>)
    requires t.queue.current.None?
    ensures t.StartCurrent(replies, false).0.queue.current.None?
  {}

  /** So an intent that a stop overtakes is recorded once the player has accepted it, and the request
      that goes out next cancels it. */
  lemma StopCancelsPreparation(s: State, event: Event, config: Config, replies: seq<Transport.Reply>)
    requires PermittedStop(s, event) && Preparation.PrepOk(s.prep)
    requires s.prep.inFlight != [] && s.prep.inFlight[0].answer.None? && s.prep.inFlight[0].target.Some?
    ensures var stopped := s.Handle(event, config, replies);
            var recorded := stopped.Handle(PlayerPrepared(0, true), config, []).Handle(PreparationDone(0), config, []);
            recorded.prep.target == recorded.prep.live == s.prep.inFlight[0].target
            && (recorded.play.now >= recorded.prep.retryAt ==>
                  recorded.Settle().prep.inFlight == [Preparation.Intent(stopped.line.epoch, None, None)])
  {
    hide State.Control, Transport.State.StartCurrent;
    StopLeavesNoGoal(s, event, config, replies);
    var stopped := s.Handle(event, config, replies);
    Preparation.EveryStepKeepsPrep(s.prep, 0, None, 0, 0, true);
    SameGoal(stopped, stopped.prep.PlayerAnswers(0, true).Finish(0, stopped.line.epoch, stopped.play.now));
  }

  /** What is to be prepared does not depend on what is in flight. */
  lemma SameGoal(s: State, prep: Preparation.Prep)
    ensures s.(prep := prep).PreparationGoal() == s.PreparationGoal()
  {}

  /** Commits happen in the order of admission, at most once for each request. */
  lemma CommitsAreInOrder(inputs: seq<Input>, config: Config, i: nat, j: nat)
    requires i < j < |RunFrom(NEW_SESSION, inputs, config).line.commits|
    ensures var commits := RunFrom(NEW_SESSION, inputs, config).line.commits;
            1 <= commits[i] < commits[j] <= RunFrom(NEW_SESSION, inputs, config).line.sequence
  {
    NewSessionIsOk(config);
    RunKeepsSession(NEW_SESSION, inputs, config);
    var l := RunFrom(NEW_SESSION, inputs, config).line;
    assert l.commits[i] in l.commits && l.commits[j] in l.commits;
  }
}
