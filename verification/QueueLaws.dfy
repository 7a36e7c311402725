/** What the queue of `src/playback.rs` is for: undo, rotation, bounds over whole runs. */
module QueueLaws {
  import opened Options
  import opened Playback

  // ----- `previous` undoes `finish` -----

  /** `previous` reported a start and put the finished track and the line behind it back. */
  predicate Undone(before: QueueState, maxTracks: nat) {
    var after := Finish(before);
    PreviousResult(after, maxTracks).Started?
    && Previous(after, maxTracks).current == before.current
    && Previous(after, maxTracks).upcoming == before.upcoming
  }

  /** The states a caller can recognise beforehand in which `previous` undoes `finish`. */
  predicate Undoable(q: QueueState, maxTracks: nat) {
    q.current.Some? && q.upcoming != []
    && (q.loopMode.QueueLoop? || (q.loopMode.Off? && q.Len() <= maxTracks))
  }

  /** Exactly those states; in particular a lone track on queue loop is not restored. */
  lemma PreviousUndoesFinish(q: QueueState, maxTracks: nat)
    ensures Undone(q, maxTracks) <==> Undoable(q, maxTracks)
  {
    if q.current.Some? {
      var after := Finish(q);
      if q.loopMode.TrackLoop? {
        assert |Previous(after, maxTracks).upcoming| == |q.upcoming| + 1
               || !PreviousResult(after, maxTracks).Started?;
      } else {
        RememberEndsWith(q.history, q.current.value);
        if q.upcoming != [] && q.loopMode.QueueLoop? {
          FinishAppendsTheDuplicate(q);
          assert RemoveAt(after.upcoming, |after.upcoming| - 1) == q.upcoming[1..];
        }
        if q.upcoming != [] {
          assert [q.upcoming[0]] + q.upcoming[1..] == q.upcoming;
        }
      }
    }
  }

  lemma RememberEndsWith(history: seq<Track>, track: Track)
    ensures var kept := Remember(history, track);
            kept != [] && kept[|kept| - 1] == track
            && (|history| <= HISTORY_LIMIT ==>
                  kept[..|kept| - 1] == if |history| < HISTORY_LIMIT then history else history[1..])
  {
    if |history| == HISTORY_LIMIT {
      assert (history + [track])[1..] == history[1..] + [track];
    }
  }

  /** In queue-loop mode the entry `previous` takes out is the very one `finish` appended. */
  lemma FinishAppendsTheDuplicate(q: QueueState)
    requires q.current.Some? && q.upcoming != [] && q.loopMode.QueueLoop?
    ensures var after := Finish(q);
            Duplicate(after) == Some(|after.upcoming| - 1)
            && after.upcoming[|after.upcoming| - 1] == q.current.value
  {
    RememberEndsWith(q.history, q.current.value);
    var after := Finish(q);
    assert after.upcoming == q.upcoming[1..] + [q.current.value];
  }

  /** The history comes back too, unless it was full and `finish` dropped its oldest entry. */
  lemma UndoRestoresHistory(q: QueueState, maxTracks: nat)
    requires Undoable(q, maxTracks) && |q.history| <= HISTORY_LIMIT
    ensures Previous(Finish(q), maxTracks).history
            == if |q.history| < HISTORY_LIMIT then q.history else q.history[1..]
  {
    PreviousUndoesFinish(q, maxTracks);
    RememberEndsWith(q.history, q.current.value);
  }

  // ----- a refused `previous` is a no-op, an accepted one keeps every track -----

  /** Apart from the repeat it gives up, `previous` only moves tracks between line and history. */
  lemma PreviousKeepsTracks(q: QueueState, maxTracks: nat)
    ensures var after := Previous(q, maxTracks);
            if !PreviousResult(q, maxTracks).Started? then after == q
            else if Duplicate(q).Some? then
              multiset(q.Line()) + multiset(q.history)
              == multiset(after.Line()) + multiset(after.history)
                 + multiset{q.upcoming[Duplicate(q).value]}
              && SameRequest(q.upcoming[Duplicate(q).value], after.current.value)
            else
              multiset(q.Line()) + multiset(q.history)
              == multiset(after.Line()) + multiset(after.history)
  {
    if PreviousResult(q, maxTracks).Started? {
      var after := Previous(q, maxTracks);
      var n := |q.history| - 1;
      assert q.history == q.history[..n] + [q.history[n]];
      if Duplicate(q).Some? {
        RemoveAtTakesOne(q.upcoming, Duplicate(q).value);
      }
    }
  }

  lemma RemoveAtTakesOne<T>(s: seq<T>, index: nat)
    requires index < |s|
    ensures multiset(s) == multiset(RemoveAt(s, index)) + multiset{s[index]}
  {
    assert s == s[..index] + ([s[index]] + s[index + 1..]);
  }

  // ----- queue loop is a rotation -----

  function FinishTimes(q: QueueState, k: nat): QueueState {
    if k == 0 then q else Finish(FinishTimes(q, k - 1))
  }

  function LastEntries<T>(s: seq<T>, n: nat): seq<T> {
    if |s| <= n then s else s[|s| - n..]
  }

  /** Position `i` counted around a line of `n` tracks. */
  function Around(i: nat, n: nat): (position: nat)
    requires n > 0
    ensures position < n
  {
    if i < n then i else Around(i - n, n)
  }

  /** The tracks that `k` natural ends on queue loop play, in order. */
  function Played(line: seq<Track>, k: nat): (played: seq<Track>)
    requires line != []
    ensures |played| == k
  {
    seq(k, i requires 0 <= i => line[Around(i, |line|)])
  }

  ghost predicate RotatedBy<T>(line: seq<T>, turned: seq<T>, k: nat) {
    |turned| == |line|
    && forall i :: 0 <= i < |line| ==> turned[i] == line[Around(i + k, |line|)]
  }

  lemma RotateOnceMore<T>(line: seq<T>, turned: seq<T>, k: nat)
    requires line != [] && RotatedBy(line, turned, k)
    ensures RotatedBy(line, turned[1..] + [turned[0]], k + 1)
  {
    var next := turned[1..] + [turned[0]];
    var n := |line|;
    forall i | 0 <= i < n ensures next[i] == line[Around(i + (k + 1), n)] {
      if i + 1 < n {
        assert i + (k + 1) == (i + 1) + k;
        assert turned[i + 1] == line[Around((i + 1) + k, n)];
      } else {
        assert turned[0] == line[Around(0 + k, n)];
        assert Around(i + (k + 1), n) == Around(k, n);
      }
    }
  }

  /** After `k` natural ends on queue loop the line is the same line, entered `k` places on. */
  lemma {:induction false} QueueLoopRotates(q: QueueState, k: nat)
    requires q.current.Some? && q.loopMode.QueueLoop?
    ensures FinishTimes(q, k).current.Some? && FinishTimes(q, k).loopMode.QueueLoop?
    ensures RotatedBy(q.Line(), FinishTimes(q, k).Line(), k)
  {
    hide Finish;
    if k == 0 {
      assert RotatedBy(q.Line(), q.Line(), 0);
    } else {
      QueueLoopRotates(q, k - 1);
      FinishRotatesOnce(FinishTimes(q, k - 1));
      RotateOnceMore(q.Line(), FinishTimes(q, k - 1).Line(), k - 1);
    }
  }

  /** The history is then the newest entries of the old history and of the tracks played. */
  lemma {:induction false} QueueLoopHistory(q: QueueState, k: nat)
    requires q.current.Some? && q.loopMode.QueueLoop? && |q.history| <= HISTORY_LIMIT
    ensures FinishTimes(q, k).history == LastEntries(q.history + Played(q.Line(), k), HISTORY_LIMIT)
  {
    hide Finish;
    var line := q.Line();
    if k == 0 {
      assert q.history + Played(line, 0) == q.history;
    } else {
      QueueLoopHistory(q, k - 1);
      QueueLoopRotates(q, k - 1);
      var mid := FinishTimes(q, k - 1);
      FinishRotatesOnce(mid);
      assert mid.Line()[0] == line[Around(0 + (k - 1), |line|)];
      RememberIsLastEntries(q.history + Played(line, k - 1), mid.Line()[0]);
      PlayedOneMore(line, k);
      assert q.history + Played(line, k) == q.history + Played(line, k - 1) + [mid.Line()[0]];
    }
  }

  lemma PlayedOneMore(line: seq<Track>, k: nat)
    requires line != [] && k > 0
    ensures Played(line, k) == Played(line, k - 1) + [line[Around(k - 1, |line|)]]
  {}

  lemma FinishRotatesOnce(q: QueueState)
    requires q.current.Some? && q.loopMode.QueueLoop?
    ensures var after := Finish(q);
            after.current.Some? && after.loopMode.QueueLoop?
            && after.Line() == q.Line()[1..] + [q.Line()[0]]
            && after.history == Remember(q.history, q.Line()[0])
  {}

  /** As many natural ends as there are tracks bring the whole line back. */
  lemma QueueLoopFullTurn(q: QueueState)
    requires q.current.Some? && q.loopMode.QueueLoop?
    ensures FinishTimes(q, q.Len()).Line() == q.Line()
  {
    QueueLoopRotates(q, q.Len());
    var after := FinishTimes(q, q.Len()).Line();
    forall i | 0 <= i < q.Len() ensures after[i] == q.Line()[i] {
      assert Around(i + q.Len(), q.Len()) == Around(i, q.Len()) == i;
    }
  }

  lemma RememberIsLastEntries(past: seq<Track>, track: Track)
    ensures Remember(LastEntries(past, HISTORY_LIMIT), track)
            == LastEntries(past + [track], HISTORY_LIMIT)
  {}

  // ----- moving an upcoming track -----

  /** Moving there and back is the identity, and no other track changes its relative place. */
  lemma MoveRoundTrip(q: QueueState, from: nat, to: nat)
    ensures MoveTo(MoveTo(q, from, to), to, from) == q
    ensures HasPosition(q, from) && HasPosition(q, to) ==>
              var after := MoveTo(q, from, to);
              |after.upcoming| == |q.upcoming|
              && after.upcoming[to - 1] == q.upcoming[from - 1]
              && RemoveAt(after.upcoming, to - 1) == RemoveAt(q.upcoming, from - 1)
  {
    if HasPosition(q, from) && HasPosition(q, to) {
      var rest := RemoveAt(q.upcoming, from - 1);
      var track := q.upcoming[from - 1];
      var moved := InsertAt(rest, to - 1, track);
      assert RemoveAt(moved, to - 1) == rest;
      assert InsertAt(rest, from - 1, track) == q.upcoming;
    }
  }

  /** A jump keeps the other upcoming tracks in order and retires the current one to history. */
  lemma JumpKeepsTheRest(q: QueueState, position: nat)
    requires CanJump(q, position)
    ensures var after := Jump(q, position);
            after.current == Some(q.upcoming[position - 1])
            && InsertAt(after.upcoming, position - 1, after.current.value) == q.upcoming
            && after.history != [] && after.history[|after.history| - 1] == q.current.value
            && (|q.history| <= HISTORY_LIMIT ==> after.history == Recalled(q.history, q.current.value))
            && after.failures == q.failures && after.loopMode == q.loopMode
  {
    RememberEndsWith(q.history, q.current.value);
    var after := Jump(q, position);
    assert InsertAt(after.upcoming, position - 1, after.current.value) == q.upcoming;
  }

  // ----- one turn -----

  /** The history with one more track at its end, the oldest given up if there were twenty. */
  function Recalled(history: seq<Track>, track: Track): seq<Track> {
    (if |history| < HISTORY_LIMIT then history else history[1..]) + [track]
  }

  /** A turn that ended naturally: failures are forgotten; in track-loop mode the track stays, otherwise it
      is remembered and the line moves on by one, with the track at its end in queue-loop mode. */
  ghost predicate Ended(q: QueueState, after: QueueState) {
    q.current.Some? && after.failures == 0 && after.loopMode == q.loopMode
    && (if q.loopMode.TrackLoop? then after.Line() == q.Line() && after.history == q.history
        else after.history == Recalled(q.history, q.current.value)
             && after.Line() == q.upcoming + if q.loopMode.QueueLoop? then [q.current.value] else [])
  }

  /** A turn that failed: one failure more, nothing remembered; the third drops everything, and before
      that the line moves on by one. */
  ghost predicate Failed(q: QueueState, after: QueueState) {
    q.current.Some? && after.history == q.history && after.loopMode == q.loopMode
    && after.failures == Min(q.failures + 1, U8_MAX)
    && after.Line() == if q.failures + 1 >= FAILURE_LIMIT then [] else q.upcoming
  }

  /** A turn that was skipped: remembered, whatever the loop mode, and the line moves on by one. */
  ghost predicate Skipped(q: QueueState, after: QueueState) {
    q.current.Some? && after.failures == q.failures && after.loopMode == q.loopMode
    && after.history == Recalled(q.history, q.current.value) && after.Line() == q.upcoming
  }

  lemma FinishEnds(q: QueueState)
    requires q.current.Some? && |q.history| <= HISTORY_LIMIT
    ensures Ended(q, Finish(q))
  {
    assert q.upcoming + [q.current.value] == if q.upcoming == [] then [q.current.value]
                                             else [q.upcoming[0]] + (q.upcoming[1..] + [q.current.value]);
  }

  lemma FailFails(q: QueueState)
    requires q.current.Some?
    ensures Failed(q, Fail(q))
  {}

  lemma SkipSkips(q: QueueState)
    requires q.current.Some? && |q.history| <= HISTORY_LIMIT
    ensures Skipped(q, Skip(q))
  {}

  /** Removing a position takes out that track alone: put back there, it restores the queue. */
  lemma RemoveTakesOut(q: QueueState, position: nat)
    ensures if HasPosition(q, position)
            then |Remove(q, position).upcoming| == |q.upcoming| - 1
                 && q == Remove(q, position).(upcoming := InsertAt(Remove(q, position).upcoming, position - 1,
                                                                   q.upcoming[position - 1]))
            else Remove(q, position) == q
  {
    if HasPosition(q, position) {
      assert q.upcoming == q.upcoming[..position - 1] + [q.upcoming[position - 1]] + q.upcoming[position..];
      assert Remove(q, position).upcoming[..position - 1] == q.upcoming[..position - 1];
    }
  }

  // ----- preparing -----

  /** The current track is finite, of known length, and ends within the lead time. */
  predicate EndsSoon(q: QueueState, positionMs: nat) {
    q.current.Some? && !q.current.value.stream && q.current.value.durationMs > 0
    && q.current.value.durationMs <= positionMs + PREPARATION_LEAD_MS
  }

  /** A finite recording other than the current one. */
  predicate NeedsPreparing(q: QueueState, next: Option<Track>)
    requires q.current.Some?
  {
    next.Some? && !next.value.stream && next.value.encoded != q.current.value.encoded
  }

  /** In every loop mode, what is prepared is exactly what a natural end would play next, if that is
      near and a different finite recording; otherwise nothing is. */
  lemma PreparedIsWhatPlaysNext(q: QueueState, positionMs: nat)
    ensures PreparationTarget(q, positionMs)
            == if EndsSoon(q, positionMs) && NeedsPreparing(q, Finish(q).current) then Finish(q).current else None
  {
    if q.current.Some? && q.upcoming != [] && q.loopMode.QueueLoop? {
      assert (q.upcoming + [q.current.value])[0] == q.upcoming[0];
    }
  }

  // ----- admission -----

  /** Admission takes the longest prefix that fits and appends it in order. */
  lemma EnqueueAppendsPrefix(q: QueueState, tracks: seq<Track>, maxTracks: nat)
    requires q.current.None? ==> q.upcoming == []
    ensures var admitted := Admitted(q, tracks, maxTracks);
            admitted <= tracks
            && Enqueue(q, tracks, maxTracks).Line() == q.Line() + admitted
            && (|admitted| < |tracks| ==> Enqueue(q, tracks, maxTracks).Len() >= maxTracks)
  {
    var admitted := Admitted(q, tracks, maxTracks);
    if q.current.None? && admitted != [] {
      assert [admitted[0]] + admitted[1..] == admitted;
    } else if q.current.Some? {
      assert [q.current.value] + (q.upcoming + admitted) == [q.current.value] + q.upcoming + admitted;
    }
  }

  // ----- whole runs -----

  datatype QueueOp =
    | DoEnqueue(tracks: seq<Track>)
    | DoFinish
    | DoFail
    | DoSkip
    | DoPrevious
    | DoJump(position: nat)
    | DoStop
    | DoClear
    | DoShuffle(order: seq<Track>)
    | DoRemove(position: nat)
    | DoMove(from: nat, to: nat)
    | DoLoop(mode: LoopMode)

  function Apply(q: QueueState, op: QueueOp, maxTracks: nat): QueueState {
    match op
    case DoEnqueue(tracks) => Enqueue(q, tracks, maxTracks)
    case DoFinish => Finish(q)
    case DoFail => Fail(q)
    case DoSkip => Skip(q)
    case DoPrevious => Previous(q, maxTracks)
    case DoJump(position) => Jump(q, position)
    case DoStop => Stop(q)
    case DoClear => Clear(q)
    case DoShuffle(order) => if multiset(order) == multiset(q.upcoming) then q.(upcoming := order) else q
    case DoRemove(position) => Remove(q, position)
    case DoMove(from, to) => MoveTo(q, from, to)
    case DoLoop(mode) => q.(loopMode := mode)
  }

  function RunQueue(ops: seq<QueueOp>, maxTracks: nat): QueueState {
    if ops == [] then EMPTY_QUEUE
    else Apply(RunQueue(ops[..|ops| - 1], maxTracks), ops[|ops| - 1], maxTracks)
  }

  predicate QueueOk(q: QueueState, maxTracks: nat) {
    q.Len() <= maxTracks
    && |q.history| <= HISTORY_LIMIT
    && (q.current.None? ==> q.upcoming == [])
    && (q.current.Some? ==> q.failures < FAILURE_LIMIT)
    && q.failures <= FAILURE_LIMIT
  }

  lemma ApplyKeepsQueueOk(q: QueueState, op: QueueOp, maxTracks: nat)
    requires QueueOk(q, maxTracks)
    ensures QueueOk(Apply(q, op, maxTracks), maxTracks)
  {
    match op
    case DoEnqueue(tracks) => EnqueueAppendsPrefix(q, tracks, maxTracks);
    case DoShuffle(order) =>
      assert |multiset(order)| == |order| && |multiset(q.upcoming)| == |q.upcoming|;
    case _ =>
  }

  /** Every reachable queue is within its bounds, whatever was asked of it. */
  lemma {:induction false} ReachableQueueOk(ops: seq<QueueOp>, maxTracks: nat)
    ensures QueueOk(RunQueue(ops, maxTracks), maxTracks)
  {
    if ops != [] {
      ReachableQueueOk(ops[..|ops| - 1], maxTracks);
      ApplyKeepsQueueOk(RunQueue(ops[..|ops| - 1], maxTracks), ops[|ops| - 1], maxTracks);
    }
  }

  // ----- going back -----

  /** The last upcoming track that the same user requested for the recording to go back to. */
  ghost predicate IsRepeat(q: QueueState, i: int) {
    q.history != [] && 0 <= i < |q.upcoming| && Repeats(q, i) && forall k :: i < k < |q.upcoming| ==> !Repeats(q, k)
  }

  predicate Repeats(q: QueueState, i: nat)
    requires q.history != [] && i < |q.upcoming|
  {
    var track := q.history[|q.history| - 1];
    q.upcoming[i].encoded == track.encoded && q.upcoming[i].requesterId == track.requesterId
  }

  /** In a queue loop, the track to go back to already has its repeat in line. */
  ghost predicate HasRepeat(q: QueueState) {
    q.loopMode.QueueLoop? && exists i :: IsRepeat(q, i)
  }

  lemma DuplicateIsTheRepeat(q: QueueState)
    ensures Duplicate(q).Some? ==> IsRepeat(q, Duplicate(q).value)
    ensures Duplicate(q).Some? <==> HasRepeat(q)
  {
    if q.history != [] {
      var found := LastMatch(q.upcoming, q.history[|q.history| - 1]);
      if found.None? {
        forall i ensures !IsRepeat(q, i) {
          if 0 <= i < |q.upcoming| {
            assert !SameRequest(q.upcoming[i], q.history[|q.history| - 1]);
          }
        }
      } else {
        assert IsRepeat(q, found.value);
      }
    }
  }

  /** `previous` works exactly with something current and remembered, and with room for the track that it
      puts back in line unless it takes a repeat out. */
  lemma PreviousWorksExactly(q: QueueState, maxTracks: nat)
    ensures PreviousResult(q, maxTracks).NoHistory? <==> q.current.None? || q.history == []
    ensures PreviousResult(q, maxTracks).Started?
            <==> q.current.Some? && q.history != [] && (HasRepeat(q) || |q.Line()| < maxTracks)
  {
    DuplicateIsTheRepeat(q);
  }

  /** Then the last remembered track is current, the old one is next, and the rest of the line follows, without
      the last repeat of the track in a queue loop. */
  lemma PreviousGoesBack(q: QueueState, maxTracks: nat)
    requires PreviousResult(q, maxTracks).Started?
    ensures var after := Previous(q, maxTracks);
            var track := q.history[|q.history| - 1];
            after.current == Some(track) && after.history + [track] == q.history
            && after.failures == q.failures && after.loopMode == q.loopMode
            && after.upcoming != [] && after.upcoming[0] == q.current.value
            && (if HasRepeat(q)
                then exists i :: IsRepeat(q, i)
                       && after.upcoming[1..] == q.upcoming[..i] + q.upcoming[i + 1..]
                else after.upcoming[1..] == q.upcoming)
  {
    hide HasRepeat, Repeats;
    DuplicateIsTheRepeat(q);
  }
}
