/** The playback fields of `GuildSession` in `src/session.rs`, updated in place. Every method is
    proved to do what the value-level `Transport` says. */
module Playhead {
  import opened Options
  import opened Playback
  import Transport

  class Playhead {
    var queue: Queue
    var generation: nat
    var positionMs: nat
    var positionAt: nat
    var progressAt: nat
    var endDeadline: Option<nat>
    var watchdogRetry: nat
    var started: bool
    var paused: bool
    var connected: bool
    var idleAt: Option<nat>
    var clock: nat  // what the monotonic clock reads now
    ghost var log: seq<Transport.Fact>

    ghost function State(): Transport.State
      reads this, queue
    {
      Transport.State(queue.State(), generation, positionMs, positionAt, progressAt, endDeadline,
                      watchdogRetry, started, paused, connected, idleAt, clock, log)
    }

    constructor ()
      ensures State() == Transport.NEW_STATE && fresh(queue)
    {
      queue := new Queue();
      generation, positionMs, positionAt, progressAt := 0, 0, 0, 0;
      endDeadline, watchdogRetry, started := None, 0, false;
      paused, connected, idleAt, clock, log := false, false, None, 0, [];
    }

    method Await(ms: nat)
      modifies this`clock
      ensures clock == old(clock) + ms
    {
      clock := clock + ms;
    }

    method ScheduleEnd()
      modifies this`endDeadline
      ensures endDeadline == Transport.EndDeadline(queue.current, positionMs, paused, clock)
    {
      endDeadline := None;
      if queue.current.Some? {
        var track := queue.current.value;
        if !track.stream && track.durationMs > 0 && !paused {
          endDeadline := Some(clock + Minus(track.durationMs, positionMs) + Transport.END_SLACK_MS);
        }
      }
    }

    method Alive()
      modifies this`log
      ensures log == old(log) + [Transport.Sign(generation, clock)]
    {
      log := log + [Transport.Sign(generation, clock)];
    }

    method BeginTrack()
      modifies this
      ensures queue == old(queue)
      ensures State() == old(State()).Begin()
    {
      hide Transport.EndDeadline, Transport.State.Begin;
      BeginFields(State());
      generation, positionMs := generation + 1, 0;
      positionAt, progressAt, watchdogRetry := clock, clock, clock;
      started, paused := false, false;
      ScheduleEnd();
      Alive();
    }

    /** Sends the update for the current track, or for silence, and awaits the reply. */
    method UpdatePlayer(reply: Transport.Reply)
      modifies this`clock, this`log
      ensures State() == old(State()).Told(reply)
    {
      Await(reply.tookMs);
      log := log + [Transport.Updated(generation, queue.current, reply.accepted)];
    }

    method StartCurrent(replies: seq<Transport.Reply>) returns (ok: bool)
      modifies this, queue
      ensures queue == old(queue)
      ensures (State(), ok) == old(State()).StartCurrent(replies, false)
    {
      hide Fail, Transport.State.Begin, Transport.State.Told;
      var failed := false;
      var sent := 0;
      while true
        invariant sent <= |replies| && queue == old(queue)
        invariant State().StartCurrent(replies[sent..], failed)
                  == old(State()).StartCurrent(replies, false)
        decreases State().StartsLeft()
      {
        ghost var before := State();
        BeginTrack();
        var reply := if sent < |replies| then replies[sent] else Transport.Reply(false, 0);
        UpdatePlayer(reply);
        if reply.accepted {
          idleAt := if queue.current.None? then Some(clock) else None;
          return !(failed && queue.current.None?);
        }
        if queue.current.None? {
          idleAt := Some(clock);
          return false;
        }
        FailedStart(before, replies, sent, failed);
        failed := true;
        log := log + [Transport.Advanced(generation, Transport.StartRefused, clock)];
        queue.FailCurrent();
        sent := if sent < |replies| then sent + 1 else sent;
      }
    }

    method FinishTrack(cause: Transport.Cause, replies: seq<Transport.Reply>)
      modifies this, queue
      ensures queue == old(queue)
      ensures State() == old(State()).FinishTrack(cause, replies)
    {
      hide Finish, Transport.State.StartCurrent;
      log := log + [Transport.Advanced(generation, cause, clock)];
      queue.FinishCurrent();
      assert State() == old(State()).Advance(cause, Finish(old(queue.State())));
      var _ := StartCurrent(replies);
    }

    method TrackFailure(cause: Transport.Cause, replies: seq<Transport.Reply>)
      modifies this, queue
      ensures queue == old(queue)
      ensures State() == old(State()).FailTrack(cause, replies)
    {
      hide Fail, Transport.State.StartCurrent;
      log := log + [Transport.Advanced(generation, cause, clock)];
      queue.FailCurrent();
      assert State() == old(State()).Advance(cause, Fail(old(queue.State())));
      var _ := StartCurrent(replies);
    }

    method ObserveProgress(snapshot: Transport.Snapshot)
      modifies this
      ensures queue == old(queue)
      ensures State() == old(State()).ObserveProgress(snapshot)
    {
      hide Transport.EndDeadline, Transport.State.ObserveProgress;
      ObserveFields(State(), snapshot);
      if snapshot.generation != Some(generation) || snapshot.position.None? {
        return;
      }
      connected := snapshot.connected;
      if snapshot.position.value > positionMs {
        progressAt := clock;
        positionMs := snapshot.position.value;
        ScheduleEnd();
        Alive();
      }
      positionAt := clock;
    }

    method BackendEvent(event: Transport.TrackEvent, replies: seq<Transport.Reply>)
      modifies this, queue
      ensures queue == old(queue)
      ensures State() == old(State()).Backend(event, replies)
    {
      hide Transport.EndDeadline, Transport.State.FinishTrack, Transport.State.FailTrack;
      if queue.current.None? || event.generation != Some(generation) {
        return;
      }
      match event.kind {
        case TrackStart =>
          if started {
            return;
          }
          started := true;
          positionAt := clock;
          progressAt := clock;
          ScheduleEnd();
          Alive();
        case TrackEnd(reason) =>
          if reason == Transport.FINISHED {
            FinishTrack(Transport.FinishedEvent, replies);
          } else if reason == Transport.LOAD_FAILED {
            TrackFailure(Transport.FailedEvent, replies);
          }
        case TrackException => TrackFailure(Transport.FailedEvent, replies);
        case TrackStuck => TrackFailure(Transport.FailedEvent, replies);
        case OtherKind =>
      }
    }

    method CheckPlayback(ready: bool, tookMs: nat, answer: Option<Transport.Snapshot>,
                         replies: seq<Transport.Reply>)
      modifies this, queue
      ensures queue == old(queue)
      ensures State() == old(State()).CheckPlayback(ready, tookMs, answer, replies)
    {
      hide Transport.State.RecoverPlayback, Transport.State.RecoverUnverifiable;
      if queue.current.None? || paused || !ready || clock < watchdogRetry {
        return;
      }
      var stalled := Minus(clock, progressAt) >= Transport.STALL_MS;
      if !stalled && (endDeadline.None? || clock < endDeadline.value) {
        return;
      }
      watchdogRetry := clock + Transport.RETRY_MS;
      Await(tookMs);
      if answer.None? {
        endDeadline := Some(clock + Transport.RETRY_MS);
        RecoverUnverifiableStall(replies);
      } else {
        RecoverPlayback(answer.value, replies);
      }
    }

    method RecoverPlayback(player: Transport.Snapshot, replies: seq<Transport.Reply>)
      modifies this, queue
      ensures queue == old(queue)
      ensures State() == old(State()).RecoverPlayback(player, replies)
    {
      hide Transport.EndDeadline, Transport.State.FinishTrack, Transport.State.FailTrack;
      hide Transport.State.ObserveProgress,
        Transport.State.RecoverUnverifiable;
      var current := player.generation == Some(generation);
      var terminal := player.terminalGeneration == Some(generation);
      if current {
        ObserveProgress(player);
        if player.paused || Minus(clock, progressAt) < Transport.STALL_MS {
          ScheduleEnd();
          return;
        }
      } else if !(player.trackIsNull && terminal) {
        endDeadline := Some(clock + Transport.RETRY_MS);
        RecoverUnverifiableStall(replies);
        return;
      }
      var finished := !current && player.terminalReason == Some(Transport.FINISHED);
      if finished {
        FinishTrack(Transport.WatchdogFinished, replies);
      } else {
        TrackFailure(if current then Transport.WatchdogStalled else Transport.WatchdogFailed, replies);
      }
    }

    method RecoverUnverifiableStall(replies: seq<Transport.Reply>)
      modifies this, queue
      ensures queue == old(queue)
      ensures State() == old(State()).RecoverUnverifiable(replies)
    {
      if Minus(clock, progressAt) >= Transport.UNVERIFIED_STALL_MS {
        TrackFailure(Transport.WatchdogUnverified, replies);
      }
    }

    method TogglePause(pause: bool, reply: Transport.Reply)
      modifies this
      ensures queue == old(queue)
      ensures State() == old(State()).TogglePause(pause, reply)
    {
      hide Transport.EndDeadline, Transport.State.TogglePause;
      ToggleFields(State(), pause, reply);
      if queue.current.None? || pause == paused {
        return;
      }
      Await(reply.tookMs);
      if !reply.accepted {
        return;
      }
      positionMs := positionMs + if paused || !started then 0 else Minus(clock, positionAt);
      positionAt, progressAt := clock, clock;
      paused := pause;
      ScheduleEnd();
      Alive();
    }

    /** Skip, jump and previous: the queue has moved on, and what is now current is started. */
    method MoveOn(replies: seq<Transport.Reply>, ghost before: Transport.State)
      requires State() == before.(queue := queue.State())
      modifies this, queue
      ensures queue == old(queue)
      ensures State() == before.Advance(Transport.Control, old(queue.State()))
                               .StartCurrent(replies, false).0
    {
      hide Transport.State.StartCurrent;
      log := log + [Transport.Advanced(generation, Transport.Control, clock)];
      assert State() == before.Advance(Transport.Control, old(queue.State()));
      var _ := StartCurrent(replies);
    }

    method SetIdle(at: Option<nat>)
      modifies this`idleAt
      ensures State() == old(State()).(idleAt := at)
    {
      idleAt := at;
    }

    /** `stop`: the queue is emptied; the player is told separately. */
    method StopQueue()
      modifies this`paused, queue
      ensures State() == old(State()).(queue := Stop(old(queue.State())), paused := false)
    {
      queue.StopAll();
      paused := false;
    }

    /** The session is left: a new queue, and nothing is playing. */
    method Reset()
      modifies this
      ensures State() == old(State()).Reset() && fresh(queue)
    {
      queue := new Queue();
      connected := false;
      idleAt := None;
      started := false;
      paused := false;
      endDeadline := None;
    }

    function Position(): nat
      reads this
    {
      positionMs + if paused || !started then 0 else Minus(clock, positionAt)
    }
  }

  lemma BeginFields(t: Transport.State)
    ensures t.Begin()
            == Transport.State(
                 t.queue, t.generation + 1, 0, t.now, t.now,
                 Transport.EndDeadline(t.queue.current, 0, false, t.now), t.now, false, false,
                 t.connected, t.idleAt, t.now, t.log + [Transport.Sign(t.generation + 1, t.now)])
  {}

  lemma ObserveFields(t: Transport.State, snapshot: Transport.Snapshot)
    ensures t.ObserveProgress(snapshot)
            == if snapshot.generation != Some(t.generation) || snapshot.position.None? then t
               else if snapshot.position.value <= t.positionMs
               then t.(connected := snapshot.connected, positionAt := t.now)
               else t.(connected := snapshot.connected, positionAt := t.now, progressAt := t.now,
                       positionMs := snapshot.position.value,
                       endDeadline := Transport.EndDeadline(t.queue.current, snapshot.position.value,
                                                            t.paused, t.now),
                       log := t.log + [Transport.Sign(t.generation, t.now)])
  {}

  lemma ToggleFields(t: Transport.State, pause: bool, reply: Transport.Reply)
    ensures var now := t.now + reply.tookMs;
            var position := t.positionMs + if t.paused || !t.started then 0 else Minus(now, t.positionAt);
            t.TogglePause(pause, reply)
            == if t.queue.current.None? || pause == t.paused then t
               else if !reply.accepted then t.(now := now)
               else Transport.State(
                      t.queue, t.generation, position, now, now,
                      Transport.EndDeadline(t.queue.current, position, pause, now), t.watchdogRetry,
                      t.started, pause, t.connected, t.idleAt, now,
                      t.log + [Transport.Sign(t.generation, now)])
  {}

  /** What a refused start of a current track leads to. */
  lemma FailedStart(t: Transport.State, replies: seq<Transport.Reply>, sent: nat, failed: bool)
    requires sent <= |replies| && t.queue.current.Some?
    requires sent < |replies| ==> !replies[sent].accepted
    ensures var reply := if sent < |replies| then replies[sent] else Transport.Reply(false, 0);
            var told := t.Begin().Told(reply);
            var next := told.Advance(Transport.StartRefused, Fail(t.queue));
            told.queue == t.queue && next.StartsLeft() < t.StartsLeft()
            && t.StartCurrent(replies[sent..], failed)
               == next.StartCurrent(replies[if sent < |replies| then sent + 1 else sent..], true)
  {
    hide Fail, Transport.State.Begin;
    TransportFewer(t);
    var tail := replies[sent..];
    assert Transport.Later(tail) == replies[if sent < |replies| then sent + 1 else sent..];
    assert tail != [] ==> tail[0] == replies[sent];
  }

  lemma TransportFewer(t: Transport.State)
    requires t.queue.current.Some?
    ensures forall next: Transport.State ::
              next.queue == Fail(t.queue) ==> next.StartsLeft() < t.StartsLeft()
  {}
}
