/** Normalising a loader response into tracks, in `src/resolver.rs`. */
module Resolver {
  import opened Options
  import opened Playback

  datatype Failure = NoMatch | InvalidResponse | LoadFailed | Unavailable | Unsupported | Full

  datatype Result<T, E> = Ok(value: T) | Err(error: E)

  datatype Limits = Limits(playlists: nat, queue: nat, maxDurationMs: nat, allowStreams: bool)

  datatype Resolution = Resolution(tracks: seq<Track>, playlist: Option<string>, rejected: nat, omitted: nat)

  datatype RawTrack = RawTrack(
    encoded: string, identifier: string, title: string, author: string, length: nat, isStream: bool,
    uri: Option<string>, sourceName: string)

  /** A track as it arrives; one that does not decode is `None`. */
  type Entry = Option<RawTrack>

  /** A response by its load type; a list that is not an array of tracks is `None`. */
  datatype Response =
    | Failed
    | Nothing
    | Single(entry: Entry)
    | Playlist(name: Option<string>, tracks: Option<seq<Entry>>)
    | Found(tracks: Option<seq<Entry>>)
    | Other

  // ----- what is acceptable -----

  /** The characters that `str::trim` removes. */
  predicate IsSpace(c: char) {
    ('\t' <= c <= '\r') || c == ' ' || c == '\U{85}' || c == '\U{a0}' || c == '\U{1680}'
    || ('\U{2000}' <= c <= '\U{200a}') || c == '\U{2028}' || c == '\U{2029}' || c == '\U{202f}'
    || c == '\U{205f}' || c == '\U{3000}'
  }

  predicate Blank(s: string) {
    forall i :: 0 <= i < |s| ==> IsSpace(s[i])
  }

  predicate IdentifierChar(c: char) {
    ('a' <= c <= 'z') || ('A' <= c <= 'Z') || ('0' <= c <= '9') || c == '-' || c == '_'
  }

  /** Only ASCII characters are allowed, so characters and bytes count alike. */
  predicate ValidIdentifier(s: string) {
    0 < |s| <= 128 && forall i :: 0 <= i < |s| ==> IdentifierChar(s[i])
  }

  predicate Acceptable(entry: Entry, search: bool, limits: Limits) {
    entry.Some?
    && !Blank(entry.value.encoded)
    && entry.value.length <= limits.maxDurationMs
    && (limits.allowStreams || !entry.value.isStream)
    && (search ==> entry.value.sourceName == "youtube" && ValidIdentifier(entry.value.identifier))
  }

  function ToTrack(raw: RawTrack): Track {
    Track(raw.encoded, raw.identifier, raw.title, raw.author, raw.length, raw.isStream, raw.uri, "", "")
  }

  /** The positions of the acceptable entries, in source order. */
  function Positions(entries: seq<Entry>, search: bool, limits: Limits): seq<nat> {
    if entries == [] then []
    else
      var n := |entries| - 1;
      Positions(entries[..n], search, limits) + if Acceptable(entries[n], search, limits) then [n] else []
  }

  lemma {:induction false} PositionsAreTheAcceptable(entries: seq<Entry>, search: bool, limits: Limits)
    ensures var at := Positions(entries, search, limits);
            (forall i :: 0 <= i < |at| ==> at[i] < |entries| && Acceptable(entries[at[i]], search, limits))
            && (forall i, j :: 0 <= i < j < |at| ==> at[i] < at[j])
            && forall k: nat :: k < |entries| && Acceptable(entries[k], search, limits) ==> k in at
  {
    hide Acceptable;
    if entries != [] {
      PositionsAreTheAcceptable(entries[..|entries| - 1], search, limits);
    }
  }

  ghost predicate SomethingIn(s: string) {
    exists i :: 0 <= i < |s| && !IsSpace(s[i])
  }

  /** An entry is taken from exactly if it decodes, has some content, is not too long, is a stream only where
      streams are allowed and, in a search, is a YouTube entry with an identifier of 1 to 128 plain characters. */
  lemma EntryTakenExactly(entries: seq<Entry>, search: bool, limits: Limits, k: nat)
    requires k < |entries|
    ensures k in Positions(entries, search, limits)
            <==> entries[k].Some? && SomethingIn(entries[k].value.encoded)
                 && entries[k].value.length <= limits.maxDurationMs
                 && (entries[k].value.isStream ==> limits.allowStreams)
                 && (search ==> entries[k].value.sourceName == "youtube"
                                && 1 <= |entries[k].value.identifier| <= 128
                                && forall c :: c in entries[k].value.identifier ==> IdentifierChar(c))
  {
    hide Positions, IsSpace, IdentifierChar;
    PositionsAreTheAcceptable(entries, search, limits);
  }

  // ----- the tracks taken -----

  /** `tracks` are the entries at `at`, as tracks. */
  ghost predicate TakenFrom(tracks: seq<Track>, entries: seq<Entry>, at: seq<nat>) {
    |tracks| == |at|
    && forall i :: 0 <= i < |at| ==>
         at[i] < |entries| && entries[at[i]].Some? && IsTrackOf(tracks[i], entries[at[i]].value)
  }

  /** Nothing of the raw track is changed, and nobody has asked for it yet. */
  ghost predicate IsTrackOf(track: Track, raw: RawTrack) {
    track.encoded == raw.encoded && track.identifier == raw.identifier && track.title == raw.title
    && track.author == raw.author && track.durationMs == raw.length && track.stream == raw.isStream
    && track.uri == raw.uri && track.requesterId == "" && track.requestedBy == ""
  }

  /** The number of tracks a response may give. */
  function Limit(playlist: bool, search: bool, capacity: nat, limits: Limits): nat {
    Min(Min(capacity, limits.queue), if playlist then limits.playlists else if search then capacity else 1)
  }

  /** It is the largest that keeps to the capacity, the queue limit, the playlist limit for a playlist, and
      one track for a direct request. */
  lemma LimitExactly(playlist: bool, search: bool, capacity: nat, limits: Limits, n: nat)
    ensures n <= Limit(playlist, search, capacity, limits)
            <==> n <= capacity && n <= limits.queue && (playlist ==> n <= limits.playlists)
                 && (!playlist && !search ==> n <= 1)
  {}

  /** The responses that fail whatever the limits. */
  predicate Fails(response: Response, failure: Failure) {
    match failure
    case LoadFailed => response.Failed?
    case NoMatch => response.Nothing?
    case InvalidResponse =>
      response.Other? || ((response.Playlist? || response.Found?) && response.tracks.None?)
    case _ => false
  }

  function Entries(response: Response): Result<seq<Entry>, Failure> {
    match response
    case Failed => Err(LoadFailed)
    case Nothing => Err(NoMatch)
    case Single(entry) => Ok([entry])
    case Playlist(_, tracks) => if tracks.Some? then Ok(tracks.value) else Err(InvalidResponse)
    case Found(tracks) => if tracks.Some? then Ok(tracks.value) else Err(InvalidResponse)
    case Other => Err(InvalidResponse)
  }

  function PlaylistName(response: Response): Option<string> {
    if response.Playlist? then response.name else None
  }

  /** The tracks taken are the first acceptable entries in source order, as many as fit. Every entry
      of a playlist is taken, rejected or omitted; a search counts no omissions, and a direct request
      looks no further than its first acceptable entry. */
  ghost predicate Normalized(r: Resolution, entries: seq<Entry>, playlist: bool, search: bool, limit: nat,
                             limits: Limits)
  {
    var at := Positions(entries, search, limits);
    |r.tracks| == Min(|at|, limit)
    && TakenFrom(r.tracks, entries, at[..|r.tracks|])
    && (playlist || search || r.tracks == [] ==> r.rejected == |entries| - |at|)
    && (!playlist && !search && r.tracks != [] ==> r.rejected == at[0])
    && r.omitted == if playlist then |at| - |r.tracks| else 0
  }

  method Normalize(response: Response, playlist: bool, search: bool, capacity: nat, limits: Limits)
    returns (result: Result<Resolution, Failure>)
    ensures capacity == 0 ==> result == Err(Failure.Full)
    ensures forall failure :: capacity > 0 && Fails(response, failure) ==> result == Err(failure)
    ensures capacity > 0 && Entries(response).Err? ==> result == Err(Entries(response).error)
    ensures capacity > 0 && Entries(response).Ok? ==>
              (result.Ok? <==> Positions(Entries(response).value, search, limits) != []
                               && Limit(playlist, search, capacity, limits) > 0)
              && (result.Err? ==> result.error == NoMatch)
    ensures result.Ok? ==>
              Entries(response).Ok? && result.value.tracks != []
              && result.value.playlist == PlaylistName(response)
              && Normalized(result.value, Entries(response).value, playlist, search,
                            Limit(playlist, search, capacity, limits), limits)
  {
    if capacity == 0 {
      return Err(Failure.Full);
    }
    if Entries(response).Err? {
      return Err(Entries(response).error);
    }
    var limit := Limit(playlist, search, capacity, limits);
    var taken := TakeEntries(Entries(response).value, playlist, search, limit, limits);
    result := if taken.tracks == [] then Err(NoMatch) else Ok(taken.(playlist := PlaylistName(response)));
  }

  method TakeEntries(entries: seq<Entry>, playlist: bool, search: bool, limit: nat, limits: Limits)
    returns (r: Resolution)
    requires !playlist && !search ==> limit <= 1
    ensures Normalized(r, entries, playlist, search, limit, limits)
  {
    hide Acceptable, ToTrack, Positions, TakenFrom;
    var tracks: seq<Track>, rejected, omitted := [], 0, 0;
    var i := 0;
    ghost var seen := Positions(entries[..0], search, limits);
    NothingTaken(entries, search, limits);
    while i < |entries|
      invariant 0 <= i <= |entries| && seen == Positions(entries[..i], search, limits)
      invariant |tracks| == Min(|seen|, limit) && TakenFrom(tracks, entries, seen[..|tracks|])
      invariant rejected == i - |seen| && omitted == if playlist then |seen| - |tracks| else 0
      invariant !playlist && !search ==> tracks == []
    {
      PositionsStep(entries, i, search, limits);
      if !Acceptable(entries[i], search, limits) {
        rejected := rejected + 1;
      } else if |tracks| >= limit {
        if playlist {
          omitted := omitted + 1;
        }
        assert (seen + [i])[..|tracks|] == seen[..|tracks|];
        seen := seen + [i];
      } else {
        assert seen[..|tracks|] == seen && (seen + [i])[..|tracks| + 1] == seen + [i];
        AcceptableDecodes(entries[i], search, limits);
        TakeOne(tracks, entries, seen, i);
        seen := seen + [i];
        tracks := tracks + [ToTrack(entries[i].value)];
        if !playlist && !search {
          FirstPositions(entries, i + 1, search, limits);
          assert seen == [i] && Positions(entries, search, limits)[..1] == seen;
          return Resolution(tracks, None, rejected, omitted);
        }
      }
      i := i + 1;
    }
    assert entries[..i] == entries;
    r := Resolution(tracks, None, rejected, omitted);
  }

  lemma NothingTaken(entries: seq<Entry>, search: bool, limits: Limits)
    ensures Positions(entries[..0], search, limits) == [] && TakenFrom([], entries, [])
  {}

  lemma PositionsStep(entries: seq<Entry>, i: nat, search: bool, limits: Limits)
    requires i < |entries|
    ensures Positions(entries[..i + 1], search, limits)
            == Positions(entries[..i], search, limits) + if Acceptable(entries[i], search, limits) then [i] else []
  {
    hide Acceptable;
    assert entries[..i + 1][..i] == entries[..i];
  }

  lemma AcceptableDecodes(entry: Entry, search: bool, limits: Limits)
    requires Acceptable(entry, search, limits)
    ensures entry.Some?
  {}

  lemma TakeOne(tracks: seq<Track>, entries: seq<Entry>, at: seq<nat>, i: nat)
    requires TakenFrom(tracks, entries, at) && i < |entries| && entries[i].Some?
    ensures TakenFrom(tracks + [ToTrack(entries[i].value)], entries, at + [i])
  {
    hide IsTrackOf;
    ToTrackKeepsAll(entries[i].value);
  }

  lemma ToTrackKeepsAll(raw: RawTrack)
    ensures IsTrackOf(ToTrack(raw), raw)
  {}

  /** The positions within a prefix come first. */
  lemma {:induction false} FirstPositions(entries: seq<Entry>, n: nat, search: bool, limits: Limits)
    requires n <= |entries|
    ensures Positions(entries[..n], search, limits) <= Positions(entries, search, limits)
  {
    if n == |entries| {
      assert entries[..n] == entries;
    } else {
      FirstPositions(entries[..|entries| - 1], n, search, limits);
      assert entries[..|entries| - 1][..n] == entries[..n];
    }
  }
}
