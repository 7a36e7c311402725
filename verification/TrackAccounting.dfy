/** A playlist from the source to the queue: `normalize` in `src/resolver.rs` and `commit` in
    `src/session.rs` together. */
module TrackAccounting {
  import opened Playback
  import opened Resolver
  import Admission
  import QueueLaws
  import Session

  /** What `commit` tells the user: that the queue is full, or how many tracks were queued, left out by
      limits, and unsuitable. */
  datatype Answer = QueueFull | Queued(added: nat, omitted: nat, rejected: nat)

  function AnswerOf(r: Resolution, added: nat): Answer
    requires added <= |r.tracks|
  {
    if added == 0 then QueueFull else Queued(added, r.omitted + |r.tracks| - added, r.rejected)
  }

  /** Every entry of a playlist is queued, reported as omitted, or rejected, unless the queue is reported
      full, which it is exactly when there is no space; and what is queued is the first acceptable
      entries in source order, as many as the playlist, the capacity at the time of the load and the
      space left at the time of the commit allow. */
  lemma EveryEntryIsAccountedFor(r: Resolution, entries: seq<Entry>, search: bool, capacity: nat, limits: Limits,
                                 q: QueueState, request: Admission.Request)
    requires Normalized(r, entries, true, search, Limit(true, search, capacity, limits), limits)
    requires r.tracks != []
    requires q.current.None? ==> q.upcoming == []
    ensures var tagged := Session.Tagged(r.tracks, request);
            var at := Positions(entries, search, limits);
            var added := |Admitted(q, tagged, limits.queue)|;
            var answer := AnswerOf(r, added);
            (answer.QueueFull? <==> q.Len() >= limits.queue)
            && (answer.Queued? ==>
                  answer.added == added && answer.added + answer.omitted + answer.rejected == |entries|)
            && added == Min(Min(|at|, Limit(true, search, capacity, limits)), Minus(limits.queue, q.Len()))
            && added <= |at|
            && Enqueue(q, tagged, limits.queue).Line() == q.Line() + tagged[..added]
            && forall i :: 0 <= i < added ==>
                 at[i] < |entries| && entries[at[i]].Some?
                 && tagged[i].requesterId == request.userId && tagged[i].requestedBy == request.displayName
                 && IsTrackOf(tagged[i].(requesterId := "", requestedBy := ""), entries[at[i]].value)
  {
    hide Positions, Enqueue, Limit;
    var tagged := Session.Tagged(r.tracks, request);
    var at := Positions(entries, search, limits);
    PositionsFit(entries, search, limits);
    QueueLaws.EnqueueAppendsPrefix(q, tagged, limits.queue);
    var added := |Admitted(q, tagged, limits.queue)|;
    assert tagged[..added] == Admitted(q, tagged, limits.queue);
    forall i | 0 <= i < added ensures at[i] == at[..|r.tracks|][i] {}
  }

  lemma {:induction false} PositionsFit(entries: seq<Entry>, search: bool, limits: Limits)
    ensures |Positions(entries, search, limits)| <= |entries|
  {
    if entries != [] {
      PositionsFit(entries[..|entries| - 1], search, limits);
    }
  }
}
