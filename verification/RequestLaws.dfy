/** Which requests are admitted, loaded and enqueued, in `src/session.rs`, and what is then in the queue. */
module RequestLaws {
  import opened Options
  import opened Playback
  import QueueLaws
  import opened Admission
  import Transport
  import TransportLaws
  import opened Session
  import SessionLaws

  // ----- admission -----

  /** The conditions under which a play request is taken. */
  predicate Welcome(s: State, event: Event, config: Config)
    requires event.Play?
  {
    event.ready && !event.blank && event.access.Some?
    && (s.channel.None? || s.channel.value == event.access.value)
    && |s.line.Waiting()| < config.pendingLimit && |s.play.queue.Line()| < config.queueLimit
  }

  /** A play request is admitted exactly under these conditions: then it waits last, with the next number,
      for its channel; otherwise nothing changes. */
  lemma AdmittedExactly(s: State, event: Event, config: Config, replies: seq<Transport.Reply>)
    requires event.Play?
    ensures var after := s.Handle(event, config, replies);
            if Welcome(s, event, config)
            then after == s.(line := after.line)
                 && after.line.Waiting() == s.line.Waiting()
                      + [Pending(event.request, event.access.value, s.line.epoch, s.line.sequence + 1)]
                 && after.line.sequence == s.line.sequence + 1 && after.line.epoch == s.line.epoch
                 && after.line.settled == s.line.settled && after.line.commits == s.line.commits
            else after == s
  {}

  // ----- loading -----

  /** After every step the loader works on the first request that waits, if any does. */
  lemma LoaderIsBusy(s: State, input: Input, config: Config)
    ensures var line := s.Step(input, config).line;
            line.Waiting() != [] ==> line.loading == Some(line.Waiting()[0])
  {
    hide State.Handle;
  }

  // ----- commits -----

  /** What a finished load needs to be enqueued. */
  predicate Enqueues(s: State, result: Option<Resolution>, env: CommitEnv, config: Config)
    requires s.line.loading.Some?
  {
    result.Some? && result.value.tracks != [] && env.access && env.accessAfter
    && |s.play.queue.Line()| < config.queueLimit
    && if s.channel.Some? then s.channel.value == s.line.loading.value.channel else env.joined.accepted
  }

  /** A load that is finished is enqueued exactly under these conditions, and otherwise refused; either way
      it is settled. A load that is not the current one changes nothing. */
  lemma EnqueuedExactly(s: State, sequence: nat, result: Option<Resolution>, env: CommitEnv, config: Config,
                        replies: seq<Transport.Reply>)
    requires SessionLaws.SessionOk(s, config)
    ensures var after := s.Handle(Loaded(sequence, result, env), config, replies);
            if !s.line.Loading(sequence) then after == s
            else sequence in after.line.settled
                 && after.line.settled[sequence]
                    == if Enqueues(s, result, env, config) then Enqueued else Refused
  {
    hide TransportLaws.LogOk, LineOk, State.Commit, Enqueues;
    if s.line.Loading(sequence) {
      LoadedRequestIsCurrent(s.line, config.pendingLimit, sequence);
      CommitLine(s, result, env, config, replies);
      SettledAs(s.line, config.pendingLimit, Enqueued);
      SettledAs(s.line, config.pendingLimit, Refused);
    }
  }

  /** The line after a commit: the load settled and, after a failed join, everything else cancelled. */
  lemma CommitLine(s: State, result: Option<Resolution>, env: CommitEnv, config: Config,
                   replies: seq<Transport.Reply>)
    requires s.line.loading.Some? && s.line.loading.value.epoch == s.line.epoch
    ensures var after := s.Commit(result, env, config, replies).line;
            var settled := s.line.SettleLoading(if Enqueues(s, result, env, config) then Enqueued else Refused);
            after == settled || (!Enqueues(s, result, env, config) && after == settled.Invalidate())
  {
    hide State.Admitted, Line.SettleLoading, Line.Invalidate;
    if result.Some? && s.play.queue.Len() < config.queueLimit {
      AdmittedLine(s, result.value, env, config, replies);
      AdmittedLine(Joined(s, env), result.value, env, config, replies);
    }
  }

  /** The session once it has joined the request's channel. */
  function Joined(s: State, env: CommitEnv): State
    requires s.line.loading.Some?
  {
    var waited := s.play.Elapse(env.joined.tookMs);
    s.(channel := Some(s.line.loading.value.channel), play := waited.(idleAt := Some(waited.now)))
  }

  lemma AdmittedLine(s: State, resolution: Resolution, env: CommitEnv, config: Config,
                     replies: seq<Transport.Reply>)
    requires s.line.loading.Some? && s.play.queue.Len() < config.queueLimit
    ensures s.Admitted(resolution, env, config, replies).line
            == s.line.SettleLoading(if env.accessAfter && resolution.tracks != [] then Enqueued else Refused)
  {
    hide Transport.State.StartCurrent, Enqueue, Line.SettleLoading, Tagged, Playback.Admitted;
    SomethingFits(s.play.queue, Tagged(resolution.tracks, s.line.loading.value.request), config.queueLimit);
  }

  lemma SomethingFits(q: QueueState, tracks: seq<Track>, maxTracks: nat)
    requires q.Len() < maxTracks
    ensures |Playback.Admitted(q, tracks, maxTracks)| > 0 <==> |tracks| > 0
    ensures Playback.Admitted(q, tracks, maxTracks) == [] <==> tracks == []
  {}

  lemma SettledAs(l: Line, limit: nat, how: Settlement)
    requires LineOk(l, limit) && l.loading.Some?
    ensures var sequence := l.loading.value.sequence;
            sequence in l.SettleLoading(how).settled && l.SettleLoading(how).settled[sequence] == how
            && sequence in l.SettleLoading(how).Invalidate().settled
            && l.SettleLoading(how).Invalidate().settled[sequence] == how
  {
    SettleKeepsLine(l, limit, how);
    InvalidateKeepsLine(l.SettleLoading(how), limit);
  }

  // ----- what a commit puts in the queue -----

  /** The longest prefix of the resolved tracks that fits, marked with who asked for them. */
  ghost predicate Fits(q: QueueState, resolution: Resolution, request: Request, queueLimit: nat, added: seq<Track>) {
    added <= Tagged(resolution.tracks, request)
    && |q.Line()| + |added| <= queueLimit
    && (|added| < |resolution.tracks| ==> |q.Line()| + |added| == queueLimit)
    && forall i :: 0 <= i < |added| ==>
         added[i] == resolution.tracks[i].(requesterId := request.userId, requestedBy := request.displayName)
  }

  lemma AdmittedFits(q: QueueState, resolution: Resolution, request: Request, queueLimit: nat)
    requires q.Len() < queueLimit && (q.current.None? ==> q.upcoming == [])
    ensures var added := Playback.Admitted(q, Tagged(resolution.tracks, request), queueLimit);
            Fits(q, resolution, request, queueLimit, added)
            && Enqueue(q, Tagged(resolution.tracks, request), queueLimit).Line() == q.Line() + added
            && Enqueue(q, Tagged(resolution.tracks, request), queueLimit).history == q.history
            && Enqueue(q, Tagged(resolution.tracks, request), queueLimit).loopMode == q.loopMode
            && (q.current.Some? ==> Enqueue(q, Tagged(resolution.tracks, request), queueLimit).failures == q.failures)
  {
    QueueLaws.EnqueueAppendsPrefix(q, Tagged(resolution.tracks, request), queueLimit);
  }

  /** Since when the bot is alone, once its channel has been looked at. */
  function AloneNow(since: Option<nat>, alone: bool, now: nat): Option<nat> {
    if !alone then None else if since.Some? then since else Some(now)
  }

  /** `after` is `q` followed by what fits of the resolved tracks, at least one of them. */
  ghost predicate Follows(q: QueueState, after: QueueState, resolution: Resolution, request: Request,
                          queueLimit: nat)
  {
    |q.Line()| < |after.Line()|
    && after.Line() == q.Line() + after.Line()[|q.Line()|..]
    && Fits(q, resolution, request, queueLimit, after.Line()[|q.Line()|..])
    && after.history == q.history && after.loopMode == q.loopMode && after.failures == q.failures
  }

  lemma EnqueueFollows(q: QueueState, resolution: Resolution, request: Request, queueLimit: nat)
    requires q.Len() < queueLimit && resolution.tracks != [] && q.current.Some?
    ensures var after := Enqueue(q, Tagged(resolution.tracks, request), queueLimit);
            Follows(q, after, resolution, request, queueLimit)
  {
    hide Enqueue, Tagged, Fits, Playback.Admitted;
    var tracks := Tagged(resolution.tracks, request);
    AdmittedFits(q, resolution, request, queueLimit);
    SomethingFits(q, tracks, queueLimit);
    var added := Playback.Admitted(q, tracks, queueLimit);
    assert (q.Line() + added)[|q.Line()|..] == added;
  }

  /** While a track is current, what is enqueued follows the old line, and nothing else of the queue or of
      the track being played changes. */
  lemma EnqueuedFollowTheLine(s: State, sequence: nat, result: Option<Resolution>, env: CommitEnv, config: Config,
                              replies: seq<Transport.Reply>)
    requires SessionLaws.SessionOk(s, config) && s.line.Loading(sequence) && s.play.queue.current.Some?
    requires Enqueues(s, result, env, config)
    ensures var after := s.Handle(Loaded(sequence, result, env), config, replies);
            Follows(s.play.queue, after.play.queue, result.value, s.line.loading.value.request, config.queueLimit)
            && after.play.generation == s.play.generation
            && after.channel == Some(s.line.loading.value.channel)
            && after.aloneAt == AloneNow(s.aloneAt, env.alone, after.play.now)
  {
    hide TransportLaws.LogOk, LineOk, Follows, State.Admitted, Enqueue;
    LoadedRequestIsCurrent(s.line, config.pendingLimit, sequence);
    AdmittedFollows(s, result.value, env, config, replies);
    AdmittedFollows(Joined(s, env), result.value, env, config, replies);
  }

  lemma AdmittedFollows(s: State, resolution: Resolution, env: CommitEnv, config: Config,
                        replies: seq<Transport.Reply>)
    requires s.line.loading.Some? && s.play.queue.current.Some? && env.accessAfter
    requires s.play.queue.Len() < config.queueLimit && resolution.tracks != []
    ensures var after := s.Admitted(resolution, env, config, replies);
            Follows(s.play.queue, after.play.queue, resolution, s.line.loading.value.request, config.queueLimit)
            && after.play.generation == s.play.generation && after.channel == s.channel
            && (s.channel.Some? ==> after.aloneAt == AloneNow(s.aloneAt, env.alone, after.play.now))
  {
    hide Follows, Enqueue, Tagged, Playback.Admitted, Transport.State.StartCurrent;
    EnqueueFollows(s.play.queue, resolution, s.line.loading.value.request, config.queueLimit);
    SomethingFits(s.play.queue, Tagged(resolution.tracks, s.line.loading.value.request), config.queueLimit);
  }

  /** While nothing is current, what is enqueued is the whole line, and its first track is started, in the
      request's channel, once the player accepts it. */
  lemma EnqueuedStart(s: State, sequence: nat, result: Option<Resolution>, env: CommitEnv, config: Config,
                      replies: seq<Transport.Reply>)
    requires SessionLaws.SessionOk(s, config) && s.line.Loading(sequence) && s.play.queue.current.None?
    requires Enqueues(s, result, env, config) && replies != [] && replies[0].accepted
    ensures var after := s.Handle(Loaded(sequence, result, env), config, replies);
            after.play.queue.Line() != []
            && Fits(s.play.queue, result.value, s.line.loading.value.request, config.queueLimit,
                    after.play.queue.Line())
            && after.play.queue.current == Some(after.play.queue.Line()[0])
            && after.play.generation == s.play.generation + 1 && after.play.idleAt.None?
            && after.play.queue.failures == 0
            && after.channel == Some(s.line.loading.value.channel)
            && after.aloneAt == AloneNow(s.aloneAt, env.alone, after.play.now)
  {
    hide TransportLaws.LogOk, LineOk, State.Admitted, Fits;
    LoadedRequestIsCurrent(s.line, config.pendingLimit, sequence);
    if s.channel.Some? {
      AdmittedStarts(s, result.value, env, config, replies);
    } else {
      AdmittedStarts(Joined(s, env), result.value, env, config, replies);
    }
  }

  lemma AdmittedStarts(s: State, resolution: Resolution, env: CommitEnv, config: Config,
                       replies: seq<Transport.Reply>)
    requires s.line.loading.Some? && s.play.queue.current.None? && s.play.queue.upcoming == []
    requires s.play.queue.Len() < config.queueLimit && resolution.tracks != [] && env.accessAfter
    requires replies != [] && replies[0].accepted
    ensures var after := s.Admitted(resolution, env, config, replies);
            after.play.queue.Line() != []
            && Fits(s.play.queue, resolution, s.line.loading.value.request, config.queueLimit,
                    after.play.queue.Line())
            && after.play.queue.current == Some(after.play.queue.Line()[0])
            && after.play.generation == s.play.generation + 1 && after.play.idleAt.None?
            && after.play.queue.failures == 0 && after.channel == s.channel
            && (s.channel.Some? ==> after.aloneAt == AloneNow(s.aloneAt, env.alone, after.play.now))
  {
    hide Enqueue, Tagged, Fits, Playback.Admitted, Transport.State.StartCurrent;
    var request := s.line.loading.value.request;
    var tracks := Tagged(resolution.tracks, request);
    AdmittedFits(s.play.queue, resolution, request, config.queueLimit);
    SomethingFits(s.play.queue, tracks, config.queueLimit);
    var added := Playback.Admitted(s.play.queue, tracks, config.queueLimit);
    assert s.play.queue.Line() + added == added;
    FirstIsCurrent(s.play.queue, tracks, config.queueLimit);
    StartsAccepted(s.play.(queue := Enqueue(s.play.queue, tracks, config.queueLimit), idleAt := None), replies);
  }

  lemma FirstIsCurrent(q: QueueState, tracks: seq<Track>, maxTracks: nat)
    requires q.current.None? && q.upcoming == [] && Playback.Admitted(q, tracks, maxTracks) != []
    ensures var after := Enqueue(q, tracks, maxTracks);
            after.Line() != [] && after.current == Some(after.Line()[0]) && after.failures == 0
  {}

  lemma StartsAccepted(t: Transport.State, replies: seq<Transport.Reply>)
    requires replies != [] && replies[0].accepted && t.queue.current.Some?
    ensures var (after, ok) := t.StartCurrent(replies, false);
            ok && after.queue == t.queue && after.generation == t.generation + 1 && after.idleAt.None?
  {}

  // ----- what a refused load leaves -----

  /** The load was refused before the bot would join a channel. */
  predicate RefusedEarly(s: State, result: Option<Resolution>, env: CommitEnv, config: Config) {
    s.channel.Some? || result.None? || !env.access || |s.play.queue.Line()| >= config.queueLimit
  }

  /** A refused load changes nothing but its settlement, unless the bot was in no channel and tried to join. If
      the join failed, everything is cleaned up; if it succeeded, the bot waits there, and is idle from then. */
  lemma RefusedExactly(s: State, sequence: nat, result: Option<Resolution>, env: CommitEnv, config: Config,
                       replies: seq<Transport.Reply>)
    requires SessionLaws.SessionOk(s, config) && s.line.Loading(sequence) && !Enqueues(s, result, env, config)
    ensures var after := s.Handle(Loaded(sequence, result, env), config, replies);
            var joined := s.play.now + env.joined.tookMs;
            if RefusedEarly(s, result, env, config) then after == s.(line := after.line)
            else if env.joined.accepted
            then after.channel == Some(s.line.loading.value.channel)
                 && after.play == s.play.(now := joined, idleAt := Some(joined))
                 && after.prep == s.prep && after.aloneAt == s.aloneAt
            else after.channel.None? && after.play.queue == EMPTY_QUEUE && after.aloneAt.None?
                 && after.line.Waiting() == [] && after.line.epoch == s.line.epoch + 1
  {
    hide TransportLaws.LogOk, LineOk, State.Admitted;
    LoadedRequestIsCurrent(s.line, config.pendingLimit, sequence);
    if result.Some? && s.play.queue.Len() < config.queueLimit {
      RefusedAfterJoin(s, result.value, env, config, replies);
      RefusedAfterJoin(Joined(s, env), result.value, env, config, replies);
    }
  }

  lemma RefusedAfterJoin(s: State, resolution: Resolution, env: CommitEnv, config: Config,
                         replies: seq<Transport.Reply>)
    requires s.line.loading.Some? && s.play.queue.Len() < config.queueLimit
    ensures !env.accessAfter || resolution.tracks == [] ==>
              s.Admitted(resolution, env, config, replies) == s.(line := s.line.SettleLoading(Refused))
  {
    hide Transport.State.StartCurrent, Enqueue, Line.SettleLoading, Tagged, Playback.Admitted;
    SomethingFits(s.play.queue, Tagged(resolution.tracks, s.line.loading.value.request), config.queueLimit);
  }

  /** A loader that panics refuses the request it was loading, if any; the others go on waiting. */
  lemma PanicRefuses(s: State, config: Config, replies: seq<Transport.Reply>)
    requires SessionLaws.SessionOk(s, config)
    ensures var after := s.Handle(LoaderPanicked, config, replies);
            after == s.(line := after.line)
            && (if s.line.loading.None? then after == s
                else var n := s.line.loading.value.sequence;
                     after.line.Waiting() == s.line.Waiting()[1..]
                     && after.line.epoch == s.line.epoch && after.line.commits == s.line.commits
                     && after.line.settled == s.line.settled[n := Refused])
  {}
}
