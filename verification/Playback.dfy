/** The guild queue of `src/playback.rs`: a value specification of every operation, and the
    mutable `Queue` whose methods are proved against it. */
module Playback {
  import opened Options

  const HISTORY_LIMIT: nat := 20
  const FAILURE_LIMIT: nat := 3
  const PREPARATION_LEAD_MS: nat := 45_000
  const U8_MAX: nat := 255

  datatype PreviousOutcome = Started | NoHistory | Full

  datatype LoopMode = Off | TrackLoop | QueueLoop

  /** Zero `durationMs` means unknown for a finite track. */
  datatype Track = Track(
    encoded: string,
    identifier: string,
    title: string,
    author: string,
    durationMs: nat,
    stream: bool,
    uri: Option<string>,
    requesterId: string,
    requestedBy: string)

  datatype QueueState = QueueState(
    current: Option<Track>,
    upcoming: seq<Track>,
    history: seq<Track>,
    loopMode: LoopMode,
    failures: nat)
  {
    /** Everything still to be played, the current track first. */
    function Line(): seq<Track> {
      (if current.Some? then [current.value] else []) + upcoming
    }

    function Len(): nat {
      |Line()|
    }
  }

  const EMPTY_QUEUE := QueueState(None, [], [], Off, 0)

  // ----- what each operation does to the queue's value -----

  function Min(a: nat, b: nat): nat {
    if a <= b then a else b
  }

  function Minus(a: nat, b: nat): nat {
    if a <= b then 0 else a - b
  }

  function RemoveAt<T>(s: seq<T>, index: nat): seq<T>
    requires index < |s|
  {
    s[..index] + s[index + 1..]
  }

  function InsertAt<T>(s: seq<T>, index: nat, x: T): seq<T>
    requires index <= |s|
  {
    s[..index] + [x] + s[index..]
  }

  function Remember(history: seq<Track>, track: Track): seq<Track> {
    var longer := history + [track];
    if |longer| > HISTORY_LIMIT then longer[1..] else longer
  }

  /** The first upcoming track, if any, becomes the current one. */
  function Next(q: QueueState): QueueState {
    if q.upcoming == []
    then q.(current := None)
    else q.(current := Some(q.upcoming[0]), upcoming := q.upcoming[1..])
  }

  function Admitted(q: QueueState, tracks: seq<Track>, maxTracks: nat): seq<Track> {
    tracks[..Min(|tracks|, Minus(maxTracks, q.Len()))]
  }

  function Enqueue(q: QueueState, tracks: seq<Track>, maxTracks: nat): QueueState {
    var admitted := Admitted(q, tracks, maxTracks);
    if q.current.None? && admitted != []
    then q.(current := Some(admitted[0]), upcoming := q.upcoming + admitted[1..], failures := 0)
    else q.(upcoming := q.upcoming + admitted)
  }

  function Finish(q: QueueState): QueueState {
    if q.current.None? then q
    else if q.loopMode.TrackLoop? then q.(failures := 0)
    else
      var ended := q.current.value;
      Next(q.(failures := 0,
              upcoming := if q.loopMode.QueueLoop? then q.upcoming + [ended] else q.upcoming,
              history := Remember(q.history, ended)))
  }

  function Fail(q: QueueState): QueueState {
    if q.current.None? then q
    else
      var failed := q.(failures := Min(q.failures + 1, U8_MAX));
      if failed.failures >= FAILURE_LIMIT
      then failed.(upcoming := [], current := None)
      else Next(failed)
  }

  function Skip(q: QueueState): QueueState {
    if q.current.None? then q
    else Next(q.(history := Remember(q.history, q.current.value)))
  }

  predicate SameRequest(a: Track, b: Track) {
    a.encoded == b.encoded && a.requesterId == b.requesterId
  }

  /** The last position that holds the same request as `track`. */
  function LastMatch(tracks: seq<Track>, track: Track): (r: Option<nat>)
    ensures r.Some? ==> r.value < |tracks| && SameRequest(tracks[r.value], track)
    ensures r.Some? ==> forall i :: r.value < i < |tracks| ==> !SameRequest(tracks[i], track)
    ensures r.None? ==> forall i :: 0 <= i < |tracks| ==> !SameRequest(tracks[i], track)
  {
    if tracks == [] then None
    else if SameRequest(tracks[|tracks| - 1], track) then Some(|tracks| - 1)
    else LastMatch(tracks[..|tracks| - 1], track)
  }

  /** The repeat that `previous` gives up in queue-loop mode. */
  function Duplicate(q: QueueState): (r: Option<nat>)
    ensures r.Some? ==> r.value < |q.upcoming|
  {
    if q.history != [] && q.loopMode.QueueLoop?
    then LastMatch(q.upcoming, q.history[|q.history| - 1])
    else None
  }

  function PreviousResult(q: QueueState, maxTracks: nat): PreviousOutcome {
    if q.current.None? || q.history == [] then NoHistory
    else if Duplicate(q).None? && q.Len() >= maxTracks then Full
    else Started
  }

  function Previous(q: QueueState, maxTracks: nat): QueueState {
    if !PreviousResult(q, maxTracks).Started? then q
    else
      var kept := if Duplicate(q).Some? then RemoveAt(q.upcoming, Duplicate(q).value) else q.upcoming;
      q.(current := Some(q.history[|q.history| - 1]),
         upcoming := [q.current.value] + kept,
         history := q.history[..|q.history| - 1])
  }

  predicate HasPosition(q: QueueState, position: nat) {
    1 <= position <= |q.upcoming|
  }

  function Remove(q: QueueState, position: nat): QueueState {
    if HasPosition(q, position) then q.(upcoming := RemoveAt(q.upcoming, position - 1)) else q
  }

  predicate CanJump(q: QueueState, position: nat) {
    q.current.Some? && HasPosition(q, position)
  }

  function Jump(q: QueueState, position: nat): QueueState {
    if !CanJump(q, position) then q
    else Remove(q, position).(current := Some(q.upcoming[position - 1]),
                              history := Remember(q.history, q.current.value))
  }

  function Stop(q: QueueState): QueueState {
    EMPTY_QUEUE.(loopMode := q.loopMode)
  }

  function Clear(q: QueueState): QueueState {
    q.(upcoming := [])
  }

  function MoveTo(q: QueueState, from: nat, to: nat): QueueState {
    if !HasPosition(q, from) || !HasPosition(q, to) then q
    else q.(upcoming := InsertAt(RemoveAt(q.upcoming, from - 1), to - 1, q.upcoming[from - 1]))
  }

  /** Only the immediate finite successor is prepared, within the lead time. */
  function PreparationTarget(q: QueueState, positionMs: nat): Option<Track> {
    if q.current.None? || q.current.value.stream || q.current.value.durationMs == 0
       || q.loopMode.TrackLoop?
       || Minus(q.current.value.durationMs, positionMs) > PREPARATION_LEAD_MS
    then None
    else if q.upcoming == [] || q.upcoming[0].stream || q.upcoming[0].encoded == q.current.value.encoded
    then None
    else Some(q.upcoming[0])
  }

  // ----- the mutable queue -----

  class Queue {
    var current: Option<Track>
    var upcoming: seq<Track>
    var history: seq<Track>
    var loopMode: LoopMode
    var consecutiveFailures: nat

    ghost function State(): QueueState
      reads this
    {
      QueueState(current, upcoming, history, loopMode, consecutiveFailures)
    }

    constructor ()
      ensures State() == EMPTY_QUEUE
    {
      current, upcoming, history := None, [], [];
      loopMode, consecutiveFailures := Off, 0;
    }

    function Length(): nat
      reads this
      ensures Length() == State().Len()
    {
      (if current.Some? then 1 else 0) + |upcoming|
    }

    method EnqueueTracks(tracks: seq<Track>, maxTracks: nat) returns (accepted: nat)
      modifies this
      ensures State() == Enqueue(old(State()), tracks, maxTracks)
      ensures accepted == |Admitted(old(State()), tracks, maxTracks)|
    {
      var admitted := tracks[..Min(|tracks|, Minus(maxTracks, Length()))];
      accepted := 0;
      if current.None? && admitted != [] {
        current := Some(admitted[0]);
        accepted := 1;
        consecutiveFailures := 0;
      }
      ghost var began := accepted;
      while accepted < |admitted|
        invariant began <= accepted <= |admitted|
        invariant upcoming == old(upcoming) + admitted[began..accepted]
        invariant State() == old(State()).(current := current, upcoming := upcoming,
                                           failures := consecutiveFailures)
        invariant current == if began == 1 then Some(admitted[0]) else old(current)
        invariant consecutiveFailures == if began == 1 then 0 else old(consecutiveFailures)
      {
        assert admitted[began..accepted + 1] == admitted[began..accepted] + [admitted[accepted]];
        upcoming := upcoming + [admitted[accepted]];
        accepted := accepted + 1;
      }
      assert admitted[began..|admitted|] == admitted[began..];
    }

    method FinishCurrent()
      modifies this
      ensures State() == Finish(old(State()))
    {
      if current.None? {
        return;
      }
      var finished := current.value;
      consecutiveFailures := 0;
      if loopMode.TrackLoop? {
        return;
      }
      if loopMode.QueueLoop? {
        upcoming := upcoming + [finished];
      }
      RememberTrack(finished);
      NextTrack();
    }

    method FailCurrent()
      modifies this
      ensures State() == Fail(old(State()))
    {
      if current.None? {
        return;
      }
      consecutiveFailures := Min(consecutiveFailures + 1, U8_MAX);
      if consecutiveFailures >= FAILURE_LIMIT {
        upcoming := [];
        current := None;
      } else {
        NextTrack();
      }
    }

    method SkipCurrent()
      modifies this
      ensures State() == Skip(old(State()))
    {
      if current.None? {
        return;
      }
      RememberTrack(current.value);
      NextTrack();
    }

    /** The last upcoming entry of the same request; the loop is the source's `rposition`. */
    method FindLastMatch(track: Track) returns (index: Option<nat>)
      ensures index == LastMatch(upcoming, track)
    {
      var i := |upcoming|;
      assert upcoming[..i] == upcoming;
      while i > 0
        invariant 0 <= i <= |upcoming|
        invariant LastMatch(upcoming[..i], track) == LastMatch(upcoming, track)
      {
        var seen := upcoming[..i];
        assert seen[..i - 1] == upcoming[..i - 1];
        if SameRequest(upcoming[i - 1], track) {
          return Some(i - 1);
        }
        i := i - 1;
      }
      index := None;
    }

    method PlayPrevious(maxTracks: nat) returns (outcome: PreviousOutcome)
      modifies this
      ensures outcome == PreviousResult(old(State()), maxTracks)
      ensures State() == Previous(old(State()), maxTracks)
    {
      if current.None? || history == [] {
        return NoHistory;
      }
      var previous := history[|history| - 1];
      var duplicate: Option<nat> := None;
      if loopMode.QueueLoop? {
        duplicate := FindLastMatch(previous);
      }
      if duplicate.None? && Length() >= maxTracks {
        return Full;
      }
      history := history[..|history| - 1];
      if duplicate.Some? {
        upcoming := RemoveAt(upcoming, duplicate.value);
      }
      upcoming := [current.value] + upcoming;
      current := Some(previous);
      outcome := Started;
    }

    method JumpTo(position: nat) returns (jumped: bool)
      modifies this
      ensures jumped == CanJump(old(State()), position)
      ensures State() == Jump(old(State()), position)
    {
      if current.None? {
        return false;
      }
      var target := RemovePosition(position);
      if target.None? {
        return false;
      }
      RememberTrack(current.value);
      current := target;
      jumped := true;
    }

    method StopAll()
      modifies this
      ensures State() == Stop(old(State()))
    {
      current := None;
      upcoming := [];
      history := [];
      consecutiveFailures := 0;
    }

    method ClearUpcoming() returns (cleared: nat)
      modifies this
      ensures cleared == old(|upcoming|)
      ensures State() == Clear(old(State()))
    {
      cleared := |upcoming|;
      upcoming := [];
    }

    /** `order` is the arrangement the random shuffle arrives at. */
    method Shuffle(order: seq<Track>) returns (shuffled: bool)
      requires multiset(order) == multiset(upcoming)
      modifies this
      ensures shuffled == (old(|upcoming|) >= 2)
      ensures State() == if shuffled then old(State()).(upcoming := order) else old(State())
    {
      if |upcoming| < 2 {
        return false;
      }
      upcoming := order;
      shuffled := true;
    }

    method RemovePosition(position: nat) returns (removed: Option<Track>)
      modifies this
      ensures State() == Remove(old(State()), position)
      ensures removed == if HasPosition(old(State()), position)
                         then Some(old(upcoming[position - 1])) else None
    {
      removed := None;
      if 0 < position <= |upcoming| {
        removed := Some(upcoming[position - 1]);
        upcoming := RemoveAt(upcoming, position - 1);
      }
    }

    method Move(from: nat, to: nat) returns (moved: Option<Track>)
      modifies this
      ensures State() == MoveTo(old(State()), from, to)
      ensures moved == if HasPosition(old(State()), from) && HasPosition(old(State()), to)
                       then Some(old(upcoming[from - 1])) else None
    {
      if from == 0 || to == 0 || from > |upcoming| || to > |upcoming| {
        return None;
      }
      var track := upcoming[from - 1];
      upcoming := RemoveAt(upcoming, from - 1);
      upcoming := InsertAt(upcoming, to - 1, track);
      moved := Some(upcoming[to - 1]);
    }

    function NextToPrepare(positionMs: nat): Option<Track>
      reads this
      ensures NextToPrepare(positionMs) == PreparationTarget(State(), positionMs)
    {
      if current.None? || current.value.stream || current.value.durationMs == 0 || loopMode.TrackLoop?
         || Minus(current.value.durationMs, positionMs) > PREPARATION_LEAD_MS
      then None
      else if upcoming != [] && !upcoming[0].stream && upcoming[0].encoded != current.value.encoded
      then Some(upcoming[0])
      else None
    }

    method NextTrack()
      modifies this
      ensures State() == Next(old(State()))
    {
      if upcoming == [] {
        current := None;
      } else {
        current := Some(upcoming[0]);
        upcoming := upcoming[1..];
      }
    }

    method RememberTrack(track: Track)
      modifies this
      ensures State() == old(State()).(history := Remember(old(history), track))
    {
      history := history + [track];
      if |history| > HISTORY_LIMIT {
        history := history[1..];
      }
    }
  }
}
