# Raydio: verified models of playback, capture and receiver evidence

Raydio is a Discord music bot with a toolchain that records and judges what a listener received.
This project models the parts of it whose correctness spans many steps, in Dafny, and proves what they
promise. `dafny verify dfyconfig.toml` checks all of it.

Code that updates state in place is a class or a method with loops. Each is proved to do to its fields
what a specification on values says, and the promises are then proved about those specifications: for
every input, for every state, or over every run.

**Playback** (`src/playback.rs`, `src/session.rs`, `src/resolver.rs`, `src/voice.rs`).

- `Playback` and `QueueLaws`: the queue, its three loop modes, bounded history and failure cutoff.
- `Transport`, `TransportLaws`, `Playhead`: one guild's playing track. A generation for each start tells
  late events from current ones, and a progress watchdog replaces a track that has gone silent. A log of
  signs of life, player updates and queue advances is kept beside the state so that whole runs can be
  spoken about.
- `TurnLaws`: what the end of a turn does to the queue, and what a pause does to the position.
- `Admission`, `RequestLine`: play requests, one load at a time, and the epoch that a stop begins.
- `Preparation`, `Preparer`: the single preparation request in flight to the player.
- `Session`, `SessionLaws`, `GenerationLaws`, `PlayerLaws`, `GuildActor`: the whole guild actor. A step is
  one message, after any wait, with any answers of the player; loads, events, answers and snapshots may
  arrive in any order and any number of times.
- `RequestLaws`: exactly which requests are admitted and enqueued, and the queue after it. `LeaveLaws`: exactly
  when the bot leaves, and what each command does.
- `Resolver`, `TrackAccounting`: from a loader response to the queue. `Permissions`: who may do what in a
  voice channel.

**Capture** (`benchmarks/rtp_header_capture.py`). `RtpCapture` is the incremental capture parser: the RTP
fixed header (section 5.1 of RFC 3550) behind IPv4 (section 3.1 of RFC 791) and UDP (RFC 768).
`CaptureLayout` writes those bytes down, and proves that exactly these streams and packets are read.

**Receiver evidence** (`benchmarks/`).

- `QuietRuns`, `RaydioMeter`, `SourceDecoder`: two detectors of quiet stretches against one whole-history
  meaning. `MeterMeaning`: what their counters count.
- `BrowserReport`, `Collector`, `ReceiverSummary`: the browser's bounded report, the collector's files, and
  the merge of the two. `WindowMeaning` defines incident windows by the history of a run alone. `SaveLaws`
  says which saves keep what. `EventArchive`, `EventHistory`, `EventHistoryLaws`, `WindowArchiveLaws`: what
  survives when reports are late, repeated, reordered, refused or only partly saved.
- `SendTrace`, `SendTraceLaws`, `SendTraceCounts`: the sender's trace summary. `Coverage`: whether a diagnostic ran
  throughout.

**Listener helper** (`clients/discord-receiver/receiver_buffer.js`). `ReceiverBuffer`, `ReceiverBufferLaws`,
`ReceiverBufferUndo`, `ReceiverBufferChanges`, `BufferHelper`: the helper that overrides a setting of every
receiver and takes its own change back.

`Options`, `OrderedMap` and `Sorting` are shared.

## What the proofs show about the source

- `previous` undoes `finish` exactly under a condition a caller can check (`QueueLaws.Undoable`): not in
  track-loop mode, not for a lone track, and, outside queue-loop mode, only with room for the track. In
  queue-loop mode `finish` brings a lone track straight back, and `previous` then adds a second copy of it.
- `commit` compares the request's epoch with the session's. In every reachable state they are equal when a
  load is acted on (`Admission.LoadedRequestIsCurrent`), so that branch is never taken: the barrier is the
  emptied `loading`.
- The summary's completeness flag is not the same as "no event was evicted before it was archived". A report
  that arrives after the ring has moved on can archive an event that was already evicted
  (`EventHistoryLaws.LateReportsCanComplete`). `CompleteExactly` gives the condition in general, one direction
  of the simpler reading always holds (`IncompleteMeansEvicted`), and both hold when no event is evicted
  between the taking of a report and its arrival (`CompleteIfNothingWasEvictedEarly`).
- The second loop of the helper's `disable` has nothing to do: every tracked receiver belongs to a known
  connection (`ReceiverBufferLaws.DisableEmpties`).
- The helper does not always keep a value written from outside while it has the receiver.
  `ReceiverBufferChanges.SettingChangesExactly` says, for every event, exactly when a setting changes on a
  page that takes every write. An outside value is lost to a track event, to the helper looking at a
  connection again, and to `enable`, unless it is the target; and to detaching and disabling if it equals
  what the helper last applied and not the original. An overridden value is never given back
  (`ReceiverBufferUndo.ReapplyingForgetsTheOutsideValue`).
- A first application that fails leaves the setting alone exactly if the write was refused or left the value
  that was there (`ReceiverBufferChanges.FailedApplicationKeepsExactly`). A setter that turns the target into
  some other value leaves that value behind.

## Model

The laws and whole runs come first, cluster by cluster; the rows of methods that update an object follow
them, and say what those methods do to its state.

| member | source | states |
|---|---|---|
| `QueueLaws.PreviousUndoesFinish` | src/playback.rs:86-147 | `finish` then `previous` restores the current track and the upcoming ones if and only if `Undoable`: a condition on loop mode, upcoming tracks and room |
| `QueueLaws.UndoRestoresHistory` | src/playback.rs:121-203 | the undo gives back the history too, but for its oldest entry when it held 20 |
| `QueueLaws.FinishAppendsTheDuplicate` | src/playback.rs:86-147 | in queue-loop mode the repeat that `previous` removes is the very one `finish` appended, found as the last match |
| `QueueLaws.PreviousKeepsTracks` | src/playback.rs:121-147 | `previous` loses and invents no track: history, current and upcoming together stay the same but for one given-up repeat |
| `QueueLaws.QueueLoopRotates` | src/playback.rs:86-100 | k finishes in queue-loop mode rotate the line of tracks left by k |
| `QueueLaws.QueueLoopHistory` | src/playback.rs:86-203 | after k such finishes the history is the last 20 of the old history followed by the k tracks played |
| `QueueLaws.QueueLoopFullTurn` | src/playback.rs:86-100 | as many finishes as there are tracks give back the original order |
| `QueueLaws.PreviousWorksExactly` | src/playback.rs:121-147 | `previous` works if and only if something is current and remembered, and there is room or, in a queue loop, a repeat to take out |
| `QueueLaws.PreviousGoesBack` | src/playback.rs:121-147 | then the last remembered track is current, the old one next, and the rest of the line follows without the last repeat of the track |
| `QueueLaws.MoveRoundTrip` | src/playback.rs:183-190 | moving a track and moving it back changes nothing, and a valid move puts the track at its new position |
| `QueueLaws.JumpKeepsTheRest` | src/playback.rs:148-160 | a jump plays the chosen track, leaves the other upcoming ones in order, and remembers the one it replaced; failures and loop mode stay |
| `QueueLaws.EnqueueAppendsPrefix` | src/playback.rs:69-85 | admission takes the longest prefix that fits and appends it in order |
| `QueueLaws.ApplyKeepsQueueOk` | src/playback.rs:69-203 | every operation keeps the bounds: length, history of 20, nothing upcoming without a current track, fewer than 3 failures while one is current |
| `QueueLaws.ReachableQueueOk` | src/playback.rs:69-203 | so the bounds hold after every run of operations |
| `QueueLaws.PreparedIsWhatPlaysNext` | src/playback.rs:49-61 | in every loop mode, what is prepared is exactly what a natural end would play next, if the end is within 45 s and it is a different finite recording; otherwise nothing |
| `QueueLaws.FinishEnds` | src/playback.rs:86-100 | a natural end clears the failures; a track loop keeps line and history, otherwise the track becomes the last in history, and the line is shortened by its head, which a queue loop puts at the end |
| `QueueLaws.FailFails` | src/playback.rs:101-112 | a first or second failure remembers nothing, counts one more and moves on to the next track; a third empties the queue |
| `QueueLaws.SkipSkips` | src/playback.rs:114-120 | a skip remembers the track and shortens the line by its head in every loop mode |
| `QueueLaws.RemoveTakesOut` | src/playback.rs:179-182 | a removal takes out the track at its position alone: put back there, it restores the queue; at any other position nothing changes |
| `TransportLaws.StartIsBounded` | src/session.rs:1080-1116 | starting ends after at most four player updates; failure leaves an empty queue, and success means the last update was accepted for the track that is then current, or for none |
| `TransportLaws.StartKeepsLog` | src/session.rs:1080-1116 | each restart inside a start keeps the log: one advance for each generation |
| `TransportLaws.StartOnlyRefuses` | src/session.rs:1080-1116 | a start advances the queue for refused updates only |
| `TransportLaws.BackendIsSound` | src/session.rs:1117-1222 | a backend event advances the queue at most once before its restart, only for its own generation and cause |
| `TransportLaws.BackendIsIdempotent` | src/session.rs:1117-1222 | an event delivered twice does what it does once, however the second update would go |
| `TransportLaws.PositionIsFurthest` | src/session.rs:1302-1320 | whatever their order and repetition, progress reports leave the furthest reported position of the generation |
| `TransportLaws.FurthestIsLeastBound` | src/session.rs:1302-1320 | that position is the least upper bound of the set of reports |
| `TransportLaws.ObserveIsSound` | src/session.rs:1302-1320 | a progress report never advances the queue |
| `TransportLaws.CheckIsSound` | src/session.rs:1322-1404 | a watchdog check advances the queue at most once, only after the silence its cause demands or on a terminal record of this generation |
| `TransportLaws.WatchdogGivesUpExactly` | src/session.rs:1322-1404 | a check replaces the track if and only if it was due and the player either recorded its end, stood still for 60 s of silence, or gave nothing usable for 90 s |
| `TransportLaws.PauseIsSound` | src/session.rs:308-547 | pausing and resuming never advance the queue, and count as signs of life |
| `TransportLaws.DeadlineMeansOverrun` | src/session.rs:732-746 | the end deadline of a playing track is past exactly when its extrapolated position has passed its length by 15 s; a paused track, a stream or one of unknown length has none |
| `TurnLaws.EventsEndTurns` | src/session.rs:1117-1222 | an event of the current generation ends the turn naturally exactly for the reason "finished", fails it for a failed load, an exception or a stuck track, and otherwise leaves the queue alone |
| `TurnLaws.ChecksEndTurns` | src/session.rs:1322-1404 | a check that gives the track up ends the turn naturally exactly if the player's record says "finished", and fails it otherwise; any other check leaves the queue alone |
| `TurnLaws.ChecksPutOff` | src/session.rs:1322-1404 | a check that leaves the track alone asks again no sooner than 5 s later; a player that has this generation puts the expected end off, any other is given 5 s |
| `TurnLaws.FinishTrackEnds` | src/session.rs:1184-1195 | with the next update accepted, a natural end leaves the queue so: failures 0 and, outside a track loop, the ended track last in history |
| `TurnLaws.FailTrackFails` | src/session.rs:1215-1222 | with the next update accepted, a failed track adds nothing to the history and one failure; below three the next track is current, at three nothing is |
| `TurnLaws.StartRuns` | src/session.rs:1117-1175 | from its start event on a track's position advances with time and its end is expected accordingly, and a second start event changes nothing |
| `TurnLaws.ReportsTell` | src/session.rs:1302-1320 | a progress report of this generation tells whether the player is connected and where it is; only one further than those before counts as progress |
| `TurnLaws.OtherReportsTellNothing` | src/session.rs:1302-1320 | a report of another generation, or without a position, changes nothing |
| `TurnLaws.PauseFreezes` | src/session.rs:308-547 | an accepted pause keeps the position it was made at, however long it lasts |
| `TurnLaws.ResumeGoesOn` | src/session.rs:308-547 | an accepted resumption goes on from there |
| `TurnLaws.RefusedPauseChangesNothing` | src/session.rs:308-547 | a refused one changes nothing but the time |
| `Admission.AdmitKeepsLine` | src/session.rs:827-896 | admission numbers a request above all others and keeps the line within its limit |
| `Admission.StartLoadKeepsLine` | src/session.rs:773-805 | starting a load takes the first waiting request, and none is lost |
| `Admission.SettleKeepsLine` | src/session.rs:611-622 | settling the load keeps every number settled once or waiting once |
| `Admission.InvalidateKeepsLine` | src/session.rs:806-826 | an invalidation cancels everything waiting, commits nothing and changes no settled request |
| `Admission.EveryRequestIsAccountedFor` | src/session.rs:773-826 | every number ever admitted is either settled or waiting, never both |
| `Admission.LoadedRequestIsCurrent` | src/session.rs:611-622 | a completed load is acted on only while it is the current one, and then its epoch is the session's and it is not settled |
| `Admission.CommitsAscend` | src/session.rs:897-907 | a commit has a higher number than every earlier one |
| `RequestLaws.AdmittedExactly` | src/session.rs:827-896 | a play request is admitted if and only if the node is ready, the query is not blank, access holds, the bot is in that channel or in none, and requests and queue have room: then it waits last, with the next number; otherwise nothing changes |
| `RequestLaws.LoaderIsBusy` | src/session.rs:773-805 | after every step the loader works on the first waiting request, if there is any |
| `RequestLaws.EnqueuedExactly` | src/session.rs:897-1038 | from every state that keeps the invariant a finished load is enqueued if and only if it has tracks, access holds before and after, the queue has room, and the bot is in the request's channel, or in none and joins it; otherwise it is refused; a load that is not the current one changes nothing |
| `RequestLaws.EnqueuedFollowTheLine` | src/session.rs:946-1038 | while a track is current the new line is the old one followed by the longest fitting prefix of the resolved tracks, marked with the requester; generation, history and loop mode stay |
| `RequestLaws.EnqueuedStart` | src/session.rs:946-1038 | while nothing is current that prefix is the whole line, and its first track is started in the request's channel once the player accepts it |
| `RequestLaws.RefusedExactly` | src/session.rs:897-1038 | a refused load changes nothing but its settlement, unless the bot was in no channel and tried to join: a failed join cleans everything up, and after a successful one the bot waits there, idle from then |
| `RequestLaws.PanicRefuses` | src/session.rs:611-622 | a loader that panics refuses the request it was loading, if any, and the others go on waiting |
| `Preparation.EveryStepKeepsPrep` | src/session.rs:691-731 | at most one request is in flight, and with none in flight the recorded target is what the player last accepted |
| `Preparation.ConvergesInTwo` | src/session.rs:691-731 | with a fixed goal and accepted requests, the one in flight and at most one more reach the goal |
| `SessionLaws.StopCancelsPreparation` | src/session.rs:691-731 | after a permitted stop an accepted intent that was in flight is recorded, and the request that goes out next cancels it |
| `SessionLaws.StopLeavesNoGoal` | src/session.rs:308-731 | after a permitted stop nothing is current, and nothing is to be prepared |
| `Preparation.OvertakenIntentIsCancelled` | src/session.rs:691-731 | in the preparation alone: an accepted intent of an older epoch is recorded, and cancelled by the next round with no goal |
| `Preparation.RefusalChangesNothing` | src/session.rs:714-731 | a refused request leaves both sides as they were, and delays only its own epoch |
| `Preparation.RefusalDelays` | src/session.rs:691-731 | after a refusal of its epoch nothing is sent for five seconds, whatever the goal, and from then on any goal but the accepted target is |
| `SessionLaws.StepIsGood` | src/session.rs:590-668 | every step of the actor keeps the whole invariant, and moves the queue on only for its own causes |
| `SessionLaws.RunKeepsSession` | src/session.rs:590-668 | so does every run; the generation and the log only grow, and settled requests stay as they are |
| `SessionLaws.ReachableSession` | src/session.rs:590-668 | in every run: the queue within bounds, waiting requests within the limit, at most one preparation in flight, the player's intent known when none is |
| `SessionLaws.EachGenerationAdvancesOnce` | src/session.rs:1080-1404 | in every run the advances logged, by an event, a command, a refusal or the watchdog, have strictly increasing generations |
| `GenerationLaws.HandleIsOneTurn` | src/session.rs:308-1449 | every message moves the current track on only together with the generation: else it stays the same or is gone |
| `GenerationLaws.GenerationIsOneTurn` | src/session.rs:308-1449 | so in every run each generation plays at most one track, and moves on from it at most once |
| `SessionLaws.WatchdogActsOnlyOnSilence` | src/session.rs:1302-1404 | in every run the watchdog replaces a track without a terminal record only 60 s after every sign of that generation, 90 s without a usable snapshot |
| `SessionLaws.FinishNeedsEvidence` | src/session.rs:1142-1389 | a natural finish happens only in a step whose event says "finished" of the generation then playing |
| `SessionLaws.LateEventsAreInert` | src/session.rs:1117-1210 | after any run, an event of an older generation does nothing |
| `SessionLaws.StopIsABarrier` | src/session.rs:308-1449 | whatever step begins a new epoch, by a stop, a leave or any cleanup: nothing admitted before it enqueues in any run after it, and everything then waiting is settled without being enqueued |
| `SessionLaws.StopCancelsWhatWaits` | src/session.rs:308-826 | a permitted stop or leave, a closed voice socket and a lost music service begin a new epoch, and cancel everything waiting |
| `SessionLaws.StepSometimesDraws` | src/session.rs:308-1449 | a step that begins a new epoch admits and commits nothing, and leaves nothing waiting |
| `SessionLaws.CommitsAreInOrder` | src/session.rs:773-1038 | in every run commits happen in the order of admission, at most once for each request |
| `PlayerLaws.PlayerPlaysTheCurrentTrack` | src/session.rs:1080-1116 | in every run, whenever a track is current, the last track update the player got was to play it, in this generation, and it was accepted |
| `PlayerLaws.RunAgrees` | src/session.rs:590-1404 | that agreement is kept by every run from any state that has it |
| `LeaveLaws.IdleMeansNothingPlays` | src/session.rs:308-1449 | in every run the idle clock of a bot in a channel runs exactly while nothing is current, outside a channel nothing plays and no clock runs, and a finite track that is not paused has a deadline |
| `LeaveLaws.TracksAreWatched` | src/session.rs:732-1404 | in every run a track that is not paused is looked at: after 60 s without anything new, and if it is finite no later than 15 s after it should have ended |
| `LeaveLaws.LeavingForgetsEverything` | src/session.rs:308-1449 | whatever makes the bot leave its channel, nothing is left playing, prepared, waiting or remembered, and a new epoch has begun |
| `LeaveLaws.MessagesReachTheTrack` | src/session.rs:590-1320 | in a channel reports and events of this generation reach the track, and touch nothing else |
| `LeaveLaws.OutsideNothingHappens` | src/session.rs:590-668 | outside a channel no message of the player or of the voice state does anything |
| `LeaveLaws.ReconnectedPlayerIsTold` | src/session.rs:590-1301 | a player that reconnects while nothing is current is told so; otherwise only the voice state is looked at |
| `LeaveLaws.VoiceLeavesExactly` | src/session.rs:1223-1278 | which voice states make the bot leave, and since when it has been alone after the others: since the first of them that found it alone, or not at all |
| `LeaveLaws.TickLeavesExactly` | src/session.rs:1223-1301 | a tick makes the bot leave if and only if its voice state does, or it has been alone or idle for the configured time; else the watchdog looks at the track |
| `LeaveLaws.CommandsDo` | src/session.rs:308-547 | a command that is not heard from the bot's channel changes nothing; one that is, with its update accepted, does to queue, requests and channel what it names |
| `LeaveLaws.GoalIsWhatPlaysNext` | src/session.rs:49-731 | what is to be prepared is what a natural end would play next, and nothing unless a started track plays in a channel |
| `GuildActor.RunSession` | src/session.rs:590-668 | the actor over a whole run does what the specification's run does |
| `Resolver.Normalize` | src/resolver.rs:61-158 | the first acceptable entries in source order, as many as the limits allow; each failure, and when there is a result at all |
| `Resolver.TakeEntries` | src/resolver.rs:105-152 | every playlist entry is taken, rejected or omitted; a direct request stops at its first acceptable entry |
| `Resolver.PositionsAreTheAcceptable` | src/resolver.rs:118-131 | the positions taken from are exactly those of the acceptable entries, in ascending order |
| `Resolver.EntryTakenExactly` | src/resolver.rs:105-158 | an entry is taken from if and only if it decodes, is not blank, is not too long, is a stream only where streams are allowed and, in a search, is a YouTube entry with a plain identifier |
| `Resolver.LimitExactly` | src/resolver.rs:105-115 | the number of tracks is the largest that keeps to the capacity, the queue limit, the playlist limit for a playlist, and one for a direct request |
| `TrackAccounting.EveryEntryIsAccountedFor` | src/session.rs:946-971 | queued + reported as omitted + rejected = entries received, unless the queue is reported full, exactly when there is no space; the queue gains the first acceptable entries in order, whatever happened to the space during the load |
| `Permissions.PermissionsOf` | src/voice.rs:290-332 | each bit is decided by the nearest layer that speaks: member overwrite, role overwrites with allow before deny, everyone, roles; owner and administrators have all |
| `Permissions.EachLayerDecides` | src/voice.rs:290-332 | layer by layer which bits are granted: in each overwrite an allowed bit counts even if it is denied there too |
| `Permissions.OrderDoesNotMatter` | src/voice.rs:290-332 | with one overwrite for each kind and id, the order of roles and overwrites and repeated roles change nothing |
| `Permissions.FindFirst` | src/voice.rs:309-331 | the first overwrite of a kind and id |
| `Permissions.RoleLayers` | src/voice.rs:315-323 | the union of what the member's role overwrites allow, and of what they deny |
| `RtpCapture.ChunkIndependence` | benchmarks/rtp_header_capture.py:46-74 | rows, rejections, leftover and failure depend only on the bytes and not on the chunks; at most 69 bytes stay buffered, so the buffer bound never fires |
| `RtpCapture.FramingIsTheOnlyReading` | benchmarks/rtp_header_capture.py:62-69 | the framing of a stream is the only way to read it as encoded valid records followed by a partial or corrupt one |
| `RtpCapture.FrameResumes` | benchmarks/rtp_header_capture.py:62-69 | framing a longer stream resumes where its prefix stopped |
| `RtpCapture.FailureIsFinal` | benchmarks/rtp_header_capture.py:46-74 | what has failed on a stream fails on every longer one |
| `CaptureLayout.FileHeaderExactly` | benchmarks/rtp_header_capture.py:50-60 | 24 bytes are accepted as a file header in a byte order if and only if they are the encoded header: magic, version 2.4, snapshot length 54, Ethernet, in that order |
| `CaptureLayout.BadMagicExactly` | benchmarks/rtp_header_capture.py:53-58 | the failure is one of format exactly when the magic number is that of neither byte order |
| `CaptureLayout.ReadingGivesItsRows` | benchmarks/rtp_header_capture.py:46-74 | an encoded file header, encoded records and a partial rest give the rows and rejections of exactly those records, and that rest |
| `CaptureLayout.CapturesExactly` | benchmarks/rtp_header_capture.py:46-74 | a stream of at least a file header is read without failure if and only if it is made of these three parts |
| `CaptureLayout.BytesAccountedFor` | benchmarks/rtp_header_capture.py:46-74 | a good stream is the encoded file header, encoded records in its byte order and the leftover, of these lengths together; the rows and rejections are those of the records, one for each |
| `CaptureLayout.CorruptExactly` | benchmarks/rtp_header_capture.py:62-69 | with its header in, a record is corrupt if and only if no continuation of the bytes makes it a record |
| `CaptureLayout.PacketsExactly` | benchmarks/rtp_header_capture.py:19-35 | a packet gives a header for a stream if and only if it is an unfragmented IPv4 packet without options over Ethernet, carrying UDP and in it that RTP header |
| `CaptureLayout.RowsSayExactly` | benchmarks/rtp_header_capture.py:70-74 | a row is its record's time in microseconds, its original length and the header its packet carries; every other record is rejected |
| `RtpCapture.RtpHeaderReadsWhatIsCarried` | benchmarks/rtp_header_capture.py:19-35 | a row is produced if and only if the packet carries those RTP fields for that stream, behind plain IPv4 and UDP |
| `RtpCapture.WholeRecordEncodes` | benchmarks/rtp_header_capture.py:62-69 | reading a whole record loses nothing |
| `RtpCapture.EncodedRecordIsRead` | benchmarks/rtp_header_capture.py:62-69 | an encoded valid record is read back, whatever follows it |
| `RtpCapture.PackUnpack` | benchmarks/rtp_header_capture.py:57-63 | packing what was unpacked gives the bytes back, in both byte orders |
| `RtpCapture.UnpackPack` | benchmarks/rtp_header_capture.py:57-63 | unpacking what was packed gives the number back |
| `RtpCapture.CaptureChunks` | benchmarks/rtp_header_capture.py:108-118 | the capture loop reads until the input, the time or the 10,000 rows run out or a chunk fails, no sooner and no later, and has the outcome of the bytes read |
| `QuietRuns.RunsAreTheEndedRuns` | benchmarks/browser_endurance.js:64-71 | the runs are exactly the maximal quiet stretches of at least 20 ms that a sounding frame ended, with the position of that frame |
| `QuietRuns.RunsAreSpaced` | benchmarks/browser_endurance.js:64-71 | runs are in order, each at least 961 frames after the one before |
| `QuietRuns.FewRunsPerReport` | benchmarks/browser_endurance.js:64-73 | fewer than 12,128 frames end at most 13 runs, so the cap of 32 is out of reach |
| `QuietRuns.LongestBoundsEveryStretch` | benchmarks/browser_endurance.js:64 | no quiet stretch is longer than the longest reported |
| `QuietRuns.LongestIsAttained` | benchmarks/browser_endurance.js:64 | and some stretch is as long |
| `QuietRuns.TotalsAppend` | benchmarks/browser_endurance.js:55-62 | the counters of two parts add up to the counters of the whole |
| `RaydioMeter.Measure` | benchmarks/browser_endurance.js:26-77 | for every cutting into blocks and every placement of reports: summed counters are those of one pass, the joined runs are the ended runs, and with blocks of at most 128 frames no report has more than 13 |
| `MeterMeaning.CountsExactly` | benchmarks/browser_endurance.js:53-62 | over every history: finite and non-finite samples together are all samples, the non-finite ones are counted once each, as are the samples at or above the clip level and the empty frames |
| `MeterMeaning.PeakExactly` | benchmarks/browser_endurance.js:53-62 | the peak bounds every finite sample of the history, and is reached by one or is 0 |
| `MeterMeaning.SquaredExactly` | benchmarks/browser_endurance.js:53-62 | the sum of squares is over all finite samples of the history |
| `MeterMeaning.LouderTotals` | benchmarks/browser_endurance.js:53-62 | samples k times as large multiply the sum of squares by k squared and the peak by the size of k |
| `MeterMeaning.IntervalSpansItsRun` | benchmarks/decode_source_packets.c:41-69 | a printed interval starts and lasts exactly as its run does |
| `MeterMeaning.QuietExactly` | benchmarks/browser_endurance.js:53-64 | a frame is quiet if and only if every finite sample lies within 0.00001 of 0 |
| `MeterMeaning.BlocksAreReadAcross` | benchmarks/browser_endurance.js:50-56 | a block gives as many frames as its first channel has samples, or 128, each with one sample of every channel |
| `MeterMeaning.PairsAreHeardInOrder` | benchmarks/decode_source_packets.c:41-45 | the decoder hears both samples of each pair, left first |
| `SourceDecoder.DecodeSource` | benchmarks/decode_source_packets.c:29-69 | packets up to the first bad one are decoded; the intervals are those of the meter's runs plus the one still open, and the totals are the meter's |
| `SourceDecoder.HearPacket` | benchmarks/decode_source_packets.c:41-64 | the sample loop over one packet keeps the counters in step with what was heard |
| `SourceDecoder.HearFrame` | benchmarks/decode_source_packets.c:42-63 | one stereo sample |
| `BrowserReport.HappenedKeepsReport` | benchmarks/browser_endurance.js:117-133 | an event keeps the report well formed: the newest events and windows, numbered without a gap, the rest counted as dropped |
| `BrowserReport.PolledKeepsReport` | benchmarks/browser_endurance.js:305-306 | so does a poll |
| `BrowserReport.WindowIdsAreDistinct` | benchmarks/browser_endurance.js:117-133 | the windows of one report have distinct identities |
| `WindowMeaning.WindowsAreTheHistory` | benchmarks/browser_endurance.js:117-306 | in every run of events and polls the windows of the report are the newest ones that the history alone defines: one opens at each incident that finds none open, holds the first 8 incidents up to its fifth poll, and has for samples the up to 6 polls before it and the up to 5 after |
| `WindowMeaning.WindowsAreSound` | benchmarks/browser_endurance.js:117-306 | so every window but the last is closed, and each has 1 to 8 triggers |
| `Collector.BytesStayWithinLimit` | benchmarks/receiver_checkpoint.py:67-168 | no run of saves, accepted or refused, takes the archive past 64 MiB |
| `SaveLaws.FinalsExactly` | benchmarks/receiver_checkpoint.py:67-109 | over every run of saves the terminal reports kept are exactly those posted well formed, with room and without a failed write, whatever else of their save failed |
| `SaveLaws.BytesAreTheFiles` | benchmarks/receiver_checkpoint.py:67-168 | in every run of saves the bytes counted against the limit are exactly those of the event rows, the window rows and the terminal reports kept, each once |
| `SaveLaws.StoredExactly` | benchmarks/receiver_checkpoint.py:67-83 | the posted report replaces the stored one if and only if it is well formed, its terminal copy is kept if it needs one, and the write succeeds |
| `SaveLaws.HealthySave` | benchmarks/receiver_checkpoint.py:67-168 | without write failures and with room a save is refused only for a malformed report or a window out of range; an accepted one leaves the report stored and every event of it archived |
| `EventArchive.NewEventsAreASuffix` | benchmarks/receiver_checkpoint.py:152-153 | the events of a report that are not archived yet are its last ones |
| `EventArchive.SaveAddsTheRest` | benchmarks/receiver_checkpoint.py:146-168 | a save adds exactly the numbers above both what is archived and what the report has dropped; a refused one adds none; the counts agree with the file before and after |
| `EventArchive.SaveKeepsTruth` | benchmarks/receiver_checkpoint.py:146-168 | every archived row is the event that happened under its number |
| `EventHistoryLaws.NumbersAddUp` | benchmarks/receiver_checkpoint.py:146-168 | under every interleaving of events, evictions and late, repeated, reordered, refused or failed saves: the archived numbers are distinct, and with the missing count make up the last one; an event is archived if and only if the first archived report to reach it carried it |
| `EventHistoryLaws.HistoryIsTrue` | benchmarks/summarize_receiver.py:29-36 | every event of the merged history is the one that happened under its number |
| `EventHistoryLaws.CompleteExactly` | benchmarks/summarize_receiver.py:33-37 | the history is flagged complete if and only if every event up to the furthest is carried by the stored report or was carried by the first archived report to reach it |
| `EventHistoryLaws.IncompleteMeansEvicted` | benchmarks/summarize_receiver.py:33-37 | a history flagged incomplete has lost an event to eviction before it was archived, however reports were delivered |
| `EventHistoryLaws.CompleteIfNothingWasEvictedEarly` | benchmarks/summarize_receiver.py:33-37 | when no event is evicted between the taking and the arrival of a report, the flag says complete if and only if no event was evicted before it was archived, up to the report stored last |
| `EventHistoryLaws.LateReportsCanComplete` | benchmarks/summarize_receiver.py:33-37 | without that condition it need not: a run whose history is complete although its first event was evicted before it was archived |
| `EventHistoryLaws.MergedNumbers` | benchmarks/summarize_receiver.py:31-32 | the merge holds the archived numbers and those the stored report carries |
| `EventHistory.ReachableWorld` | benchmarks/receiver_checkpoint.py:67-168 | the invariant of browser, reports in flight and archive holds in every run |
| `ReceiverSummary.SummarizeEvents` | benchmarks/summarize_receiver.py:29-37 | with an archive file, the merged events, their numbers in order, and complete if and only if they are 1, 2, ... without a gap; without one, no merge and no verdict |
| `ReceiverSummary.GaplessExactly` | benchmarks/summarize_receiver.py:34-35 | a sorted listing equals the range if and only if the numbers have no gap |
| `ReceiverSummary.MergeIsHighest` | benchmarks/summarize_receiver.py:43-48 | for any file: each window of the run with a row numbered at least 1 gets the row of its highest revision, and no other window gets any |
| `ReceiverSummary.MergeWindows` | benchmarks/summarize_receiver.py:43-48 | the row of highest revision for each window of the run |
| `WindowArchiveLaws.RunKeepsWindows` | benchmarks/receiver_checkpoint.py:111-144 | over every sequence of saves of a run: revisions of each window are numbered 1, 2, ..., neighbours differ, and the highest-revision merge gives the latest archived content |
| `WindowArchiveLaws.ReportsKeepWindows` | benchmarks/receiver_checkpoint.py:111-144 | the same for every sequence of saves of reports the browser can make, whose window identities are distinct |
| `WindowArchiveLaws.SaveKeepsWindows` | benchmarks/receiver_checkpoint.py:111-144 | a refused save changes no revision; an accepted one leaves every reported window as the latest content |
| `WindowArchiveLaws.MergeIsLatest` | benchmarks/summarize_receiver.py:43-48 | the highest-revision merge is the latest archived content of every window |
| `WindowArchiveLaws.MergeIsCollectorRecord` | benchmarks/summarize_receiver.py:43-50 | and exactly the collector's own record of the run |
| `SendTraceLaws.SummaryDependsOnTheRecords` | benchmarks/summarize_send_trace.py:13-85 | without conflicting records, logs with the same records give the same summaries |
| `SendTraceLaws.SameLinesSameRecords` | benchmarks/summarize_send_trace.py:13-39 | logs with the same lines, in any order and with any repetitions, are such logs |
| `SendTraceLaws.ConflictsExactly` | benchmarks/summarize_send_trace.py:33-36 | conflicts are counted if and only if an index carries two different records |
| `SendTraceLaws.RecordsAreTheRows` | benchmarks/summarize_send_trace.py:33-36 | one record for each logged index; with no conflict, every logged record |
| `SendTraceLaws.StreamIsItsRecords` | benchmarks/summarize_send_trace.py:31-36 | the stream of an epoch is made of that epoch's records alone, in their order, with the largest drop count |
| `SendTraceLaws.MissingIsLastMinusCount` | benchmarks/summarize_send_trace.py:48-51 | missing = last index - number of records |
| `SendTraceLaws.JumpsExactly` | benchmarks/summarize_send_trace.py:50-58 | jumps are counted if and only if two records of neighbouring packets on one timeline disagree, and clock reversals if and only if one is earlier than its predecessor |
| `SendTraceLaws.GapsExactly` | benchmarks/summarize_send_trace.py:59-66 | the listed gaps are exactly those of at least 40 ms between neighbouring packets on one timeline |
| `SendTraceLaws.LargestGapExactly` | benchmarks/summarize_send_trace.py:59-60 | the largest gap bounds every such step, and is one of them or zero |
| `SendTraceLaws.LostRecordsAreNotJumps` | benchmarks/summarize_send_trace.py:50-58 | whichever records of a continuous sender are lost, none is reported, across wrap-around |
| `SendTraceLaws.ContinuousLogShowsNoJump` | benchmarks/summarize_send_trace.py:13-85 | the same from the log to the summary |
| `SendTraceCounts.MalformedExactly` | benchmarks/summarize_send_trace.py:13-39 | the malformed batches are counted once each |
| `SendTraceCounts.LatestRecordIsKept` | benchmarks/summarize_send_trace.py:33-36 | the record kept for an index is the last one logged for it |
| `SendTraceCounts.ConflictsAreOverwrites` | benchmarks/summarize_send_trace.py:33-36 | the conflicts counted are the logged records that differ from the one they take the place of |
| `SendTraceCounts.DisagreementsAreCounted` | benchmarks/summarize_send_trace.py:50-58 | sequence jumps, timestamp jumps and clock reversals are each the number of records that disagree with that of the packet before, modulo 2^16 and 2^32 |
| `SendTraceCounts.SpanExactly` | benchmarks/summarize_send_trace.py:42-86 | a summary spans from the time of the record of lowest index to that of the record of highest index, and has no span if and only if no record was logged |
| `SendTrace.ParseTraces` | benchmarks/summarize_send_trace.py:13-39 | streams by epoch and the malformed batches |
| `SendTrace.Summarize` | benchmarks/summarize_send_trace.py:42-86 | one summary for each stream, in epoch order, of its records in index order |
| `SendTrace.SummarizePairs` | benchmarks/summarize_send_trace.py:47-66 | the pass over neighbouring rows |
| `Coverage.CollectionCoverage` | benchmarks/collection_coverage.py:5-40 | `complete` if and only if the interval is not empty, every row is valid and later than those before, no probe inside finds an error, the sample minimum is met, and every stretch of the allowed gap inside holds a sample |
| `Coverage.CompleteMeansCovered` | benchmarks/collection_coverage.py:24-34 | why: head, tail and largest gap within the allowance are the same as a sample in every such stretch |
| `Coverage.MeasureGaps` | benchmarks/collection_coverage.py:26-30 | the largest gap between neighbours |
| `Coverage.GapsExactly` | benchmarks/collection_coverage.py:27-34 | it is within an allowance if and only if every gap is |
| `Coverage.InvalidRowsAreCounted` | benchmarks/collection_coverage.py:11-23 | every invalid row is counted once |
| `Coverage.ErrorsAreCounted` | benchmarks/collection_coverage.py:11-23 | every error that a probe finds inside the interval is counted once |
| `Coverage.Collect` | benchmarks/collection_coverage.py:11-23 | timestamps, invalid rows and errors; a probe that fails makes its row invalid but keeps its timestamp |
| `ReceiverBufferLaws.DisableUndoesItsOwnChange` | clients/discord-receiver/receiver_buffer.js:63-171 | after disabling, every tracked receiver that still holds the helper's value has its first recorded original; every other setting is as it was; both maps are empty and no listener remains |
| `ReceiverBufferLaws.DisableEmpties` | clients/discord-receiver/receiver_buffer.js:165-171 | disabling empties the registry, and its second loop has nothing to do |
| `ReceiverBufferLaws.StepKeepsRegistry` | clients/discord-receiver/receiver_buffer.js:18-171 | every event keeps the registry: tracked receivers are those of the known connections, and the helper listens to exactly what it knows, once |
| `ReceiverBufferLaws.RestoreRemoves` | clients/discord-receiver/receiver_buffer.js:18-36 | restoring a receiver removes it from every connection and touches no other |
| `ReceiverBufferLaws.ApplyTouchesOnly` | clients/discord-receiver/receiver_buffer.js:37-62 | applying, whether it succeeds or fails, touches only its receiver |
| `ReceiverBufferUndo.DisabledIsTransparent` | clients/discord-receiver/receiver_buffer.js:18-171 | whatever happened before, on any page: once disabled, every receiver whose own value is known holds it |
| `ReceiverBufferUndo.NoTraceIsLeft` | clients/discord-receiver/receiver_buffer.js:18-171 | a receiver nobody else writes to, and whose ending is not announced, has the setting it started with, if writes are exact or refused and restoring writes succeed |
| `ReceiverBufferUndo.EveryStepIsHonest` | clients/discord-receiver/receiver_buffer.js:18-171 | what a receiver's own value is, and whether it is known, changes only with what the page does to that receiver |
| `ReceiverBufferUndo.ReachableHelper` | clients/discord-receiver/receiver_buffer.js:18-171 | registry and record of original values hold after every run |
| `ReceiverBufferChanges.EnableSetsTheTarget` | clients/discord-receiver/receiver_buffer.js:72-164 | with its writes taken, enabling sets the target on exactly the live supported audio receivers of the open connections it looks at, known ones included, and keeps the originals on record |
| `ReceiverBufferChanges.EnableSucceedsExactly` | clients/discord-receiver/receiver_buffer.js:151-164 | `enable` returns normally if and only if the target is from 0 to 300 ms, no trial runs, and the hooks are in or can be installed; a refusal changes nothing, and failing hooks leave the helper off with every setting as it was |
| `ReceiverBufferChanges.SettingChangesExactly` | clients/discord-receiver/receiver_buffer.js:18-171 | on a page that takes every write, an event changes a setting if and only if it is another outside write, an application of another target, or the taking back of what the helper applied |
| `ReceiverBufferChanges.OutsideValueSurvivesExactly` | clients/discord-receiver/receiver_buffer.js:18-171 | a value written from outside survives the next event if and only if that event is none of these |
| `ReceiverBufferChanges.DisablingKeepsExactly` | clients/discord-receiver/receiver_buffer.js:25-171 | it survives disabling if and only if it differs from the applied value or is the original |
| `ReceiverBufferChanges.ValueIsKept` | clients/discord-receiver/receiver_buffer.js:18-171 | over a run a setting stays as it is while no such event occurs |
| `ReceiverBufferChanges.FailsExactly` | clients/discord-receiver/receiver_buffer.js:37-62 | an application fails if and only if a write is needed and does not leave the target |
| `ReceiverBufferChanges.FailedApplicationKeepsExactly` | clients/discord-receiver/receiver_buffer.js:37-62 | a failed first application leaves the setting alone if and only if the write was refused or left the value that was there |
| `ReceiverBufferChanges.FailedReapplicationRestoresExactly` | clients/discord-receiver/receiver_buffer.js:25-62 | a failed later one gives the original back if and only if the write left what was applied before, or the original |
| `ReceiverBufferUndo.ReapplyingForgetsTheOutsideValue` | clients/discord-receiver/receiver_buffer.js:25-62 | an outside value that a track event overrides is not given back: disabling restores the first original |
| `BufferHelper.RunHelper` | clients/discord-receiver/receiver_buffer.js:18-171 | the helper over a whole run does what the specification's run does |
| `Playback.Queue.EnqueueTracks` | src/playback.rs:69-85 | admits what fits; the first becomes current if nothing was, and the count returned is what was admitted |
| `Playback.Queue.FinishCurrent` | src/playback.rs:86-100 | the loop modes: repeat, or remember, append for a queue loop, and move on |
| `Playback.Queue.FailCurrent` | src/playback.rs:101-112 | counts the failure; the third in a row empties the queue |
| `Playback.Queue.SkipCurrent` | src/playback.rs:114-120 | remembers the current track and moves on, whatever the loop mode |
| `Playback.Queue.PlayPrevious` | src/playback.rs:121-147 | the outcome and new state: nothing to go back to, no room, or the last remembered track with the repeat given up |
| `Playback.Queue.FindLastMatch` | src/playback.rs:128-134 | the last upcoming entry of the same request |
| `Playback.Queue.JumpTo` | src/playback.rs:148-160 | takes the chosen track out and makes it current, or changes nothing |
| `Playback.Queue.StopAll` | src/playback.rs:161-166 | forgets everything but the loop mode |
| `Playback.Queue.ClearUpcoming` | src/playback.rs:167-171 | drops the upcoming tracks and returns how many there were |
| `Playback.Queue.Shuffle` | src/playback.rs:172-178 | puts two or more upcoming tracks in the given arrangement of them |
| `Playback.Queue.RemovePosition` | src/playback.rs:179-182 | removes and returns the track at a position, if there is one |
| `Playback.Queue.Move` | src/playback.rs:183-190 | moves a track between positions and returns it, if both exist |
| `Playhead.Playhead.StartCurrent` | src/session.rs:1080-1116 | the start loop: one generation and one update for each try, a refused track failed and the next tried |
| `Playhead.Playhead.BackendEvent` | src/session.rs:1117-1210 | which events of the current generation start, finish or fail the track; all others change nothing |
| `Playhead.Playhead.TrackFailure` | src/session.rs:1215-1222 | fails the current track and starts what is then current |
| `Playhead.Playhead.ObserveProgress` | src/session.rs:1302-1320 | position, link and deadline follow a report of the current generation only, and the position only forwards |
| `Playhead.Playhead.CheckPlayback` | src/session.rs:1322-1354 | asks the player only when due, and acts on the answer or on its absence |
| `Playhead.Playhead.RecoverPlayback` | src/session.rs:1356-1389 | a live, stalled, ended or unrelated player, each with its own consequence |
| `Playhead.Playhead.RecoverUnverifiableStall` | src/session.rs:1391-1404 | gives a track up after 90 s of silence without a usable snapshot |
| `Playhead.Playhead.ScheduleEnd` | src/session.rs:732-746 | the deadline of a finite track that is not paused |
| `Playhead.Playhead.TogglePause` | src/session.rs:308-547 | pause state, position and deadline change only once the player accepts |
| `RequestLine.RequestLine.Admit` | src/session.rs:872-880 | appends the request with the next number and the current epoch |
| `RequestLine.RequestLine.StartLoad` | src/session.rs:773-805 | moves the first waiting request to the loader if it is free |
| `RequestLine.RequestLine.Invalidate` | src/session.rs:806-826 | a new epoch; the load and all waiting requests are cancelled |
| `RequestLine.RequestLine.SettleLoading` | src/session.rs:611-622 | the finished load is enqueued or refused, and the loader is free |
| `Preparer.Preparer.PrepareNext` | src/session.rs:691-713 | a request is sent only when none is in flight, the goal differs and no retry delay runs |
| `Preparer.Preparer.FinishPreparation` | src/session.rs:714-731 | an accepted target is recorded whatever the epoch; a refusal of this epoch sets the retry time |
| `Preparer.Preparer.Cleanup` | src/session.rs:1418-1423 | a destroyed player has nothing prepared: the request in flight is dropped, the target forgotten, the retry due at once |
| `GuildActor.GuildSession.Control` | src/session.rs:308-547 | each command's guards and effect |
| `GuildActor.GuildSession.PreparePlay` | src/session.rs:827-896 | the guards of admission, in their order |
| `GuildActor.GuildSession.Commit` | src/session.rs:897-945 | the reasons to refuse a finished load, in their order, and the join |
| `GuildActor.GuildSession.EnqueueResolved` | src/session.rs:946-1038 | marks the tracks with their requester, enqueues what fits and starts if nothing was playing |
| `GuildActor.GuildSession.OnVoiceChanged` | src/session.rs:1239-1278 | leaves, stays or refreshes with the voice state |
| `GuildActor.GuildSession.UpdateAlone` | src/session.rs:1223-1238 | the time since which the bot has been alone |
| `GuildActor.GuildSession.Tick` | src/session.rs:1279-1301 | leaves when alone or idle for too long, and otherwise runs the watchdog |
| `GuildActor.GuildSession.Cleanup` | src/session.rs:1418-1449 | forgets queue, requests and channel |
| `GuildActor.GuildSession.Handle` | src/session.rs:590-668 | which message leads to which operation |
| `GuildActor.GuildSession.Settle` | src/session.rs:634-635 | after every message the next load and the next preparation are considered |
| `GuildActor.GuildSession.Step` | src/session.rs:590-668 | one turn of the loop is the specification's step |
| `RtpCapture.PcapHeaders.Feed` | benchmarks/rtp_header_capture.py:46-74 | one call: the file header once, then the records, or the exception raised |
| `RtpCapture.PcapHeaders.DrainBuffer` | benchmarks/rtp_header_capture.py:61-74 | the record loop returns the rows of the framing of the buffer and keeps its rest |
| `RaydioMeter.Meter.Process` | benchmarks/browser_endurance.js:50-76 | one block: the history grows by its frames, and a report is due after a quarter of a second |
| `RaydioMeter.Meter.SendReport` | benchmarks/browser_endurance.js:40-49 | what is reported is what the frames since the previous report say |
| `RaydioMeter.Meter.Reset` | benchmarks/browser_endurance.js:34-39 | back to an empty history |
| `RaydioMeter.Meter.ProcessFrame` | benchmarks/browser_endurance.js:53-72 | one frame keeps every field in step with the history |
| `RaydioMeter.Meter.TrackQuiet` | benchmarks/browser_endurance.js:64-71 | the quiet counter, the longest stretch and the run that a sounding frame ends |
| `RaydioMeter.Meter.CountFrame` | benchmarks/browser_endurance.js:54-62 | whether a frame is quiet, and its contribution to the counters |
| `BrowserReport.Observation.Record` | benchmarks/browser_endurance.js:117-133 | a full ring drops its oldest event and counts it; an incident joins the open window or opens one |
| `BrowserReport.Observation.Trigger` | benchmarks/browser_endurance.js:126-131 | at most 8 triggers join the open window; a full list of windows drops its oldest |
| `BrowserReport.Observation.Poll` | benchmarks/browser_endurance.js:305-306 | open windows gain the sample, and the history keeps the last 6 |
| `Collector.Collector.SaveReport` | benchmarks/receiver_checkpoint.py:67-88 | the terminal copy, the stored report, the checkpoint, the events and the windows, in this order, each only if those before succeeded |
| `Collector.Collector.KeepFinal` | benchmarks/receiver_checkpoint.py:90-109 | a terminal report is kept once |
| `Collector.Collector.KeepEvents` | benchmarks/receiver_checkpoint.py:146-168 | a new run starts over; the new events are appended and counted, or nothing is |
| `Collector.Collector.KeepWindows` | benchmarks/receiver_checkpoint.py:111-144 | a row for every window that changed, or none at all |
| `Collector.Collector.CountRows` | benchmarks/receiver_checkpoint.py:165-167 | the last number, and the numbers passed over |
| `BufferHelper.Registry.Forget` | clients/discord-receiver/receiver_buffer.js:18-24 | drops the record, the listener and the receiver from every connection |
| `BufferHelper.Registry.Restore` | clients/discord-receiver/receiver_buffer.js:25-36 | writes the original back only over the helper's own value, then forgets |
| `BufferHelper.Registry.Apply` | clients/discord-receiver/receiver_buffer.js:37-62 | records the original once, writes the target if needed, and restores on failure |
| `BufferHelper.Registry.Detach` | clients/discord-receiver/receiver_buffer.js:63-71 | stops listening, and restores every receiver of the connection |
| `BufferHelper.Registry.Attach` | clients/discord-receiver/receiver_buffer.js:72-96 | listens once, and applies to the live audio receivers |
| `BufferHelper.Registry.TurnOn` | clients/discord-receiver/receiver_buffer.js:151-164 | refuses a bad target or a running trial; backs out if the hooks fail; else attaches all |
| `BufferHelper.Registry.TurnOff` | clients/discord-receiver/receiver_buffer.js:165-171 | detaches every connection, then restores what is left |

## Left out

- Discord, HTTP, WebSocket and player traffic (`src/discord.rs`, `src/backend.rs`, `src/node.rs`, `src/runtime.rs`): their outcomes are inputs of a step.
- Scheduling of the actor's select loop: any message may come next, after any wait. A lost guild's exit from the loop and the shutdown after it are not modelled.
- Loaders are not tracked as a set: any completion, for any request, may arrive at any time, which allows more than the source does.
- `GuildActor.GuildSession.Control`: the volume command, which touches neither queue, requests nor playback state.
- `Playhead.Playhead.StartCurrent`: the notice awaited after a third failure in a row, up to 4 s, takes no time here. Nothing is current by then.
- `Playhead.Playhead.TrackFailure`: the same notice takes no time.
- `RequestLine.RequestLine.Invalidate`: the answers themselves; with 128 outstanding the source cancels without one.
- `PlayerLaws.PlayerPlaysTheCurrentTrack`: updates that change no track (pause, volume, voice) are not in the log.
- Panels, replies, volume, activity and log text (`src/views.rs`), and the counters shown in them.
- Wrap-around of generation, epoch and sequence numbers: they are unbounded here.
- `Playback.Queue.Shuffle`: the random arrangement is a parameter, required to be an arrangement of the upcoming tracks.
- `GuildActor.GuildSession.Step`: the fields of `GuildSession` are grouped into three objects (track, requests, preparation), and awaited answers are listed in the step's input; a missing answer is a refusal.
- Voice access checks of the session are the boolean conditions they lead to; `Permissions.PermissionsOf` models the permission part by itself. User limits and stage channels are not modelled.
- `src/config.rs`, `src/commands.rs`, `src/urls.rs` (but for valid identifiers), `src/service.rs`, `src/main.rs`: single conditions or glue.
- JSON decoding: a loader entry, a posted report and a log line arrive decoded or as undecodable. Trace records are compared by value, so a list and a tuple with the same items are equal here.
- `RtpCapture.CaptureChunks`: processes and files; the time limit is the number of reads there is time for.
- `RaydioMeter.Measure`: the sample rate is 48 kHz, and sums are exact where the source rounds; a `reset` between inputs is `Meter.Reset`.
- `SourceDecoder.DecodeSource`: Opus decoding is an input, times are frame numbers instead of printed decimals, and the counters of odd durations and tiny packets are left out.
- `Collector.BytesStayWithinLimit`: sizes are stand-ins for encoded sizes (every row counts at least one byte), and the digest is the content itself.
- Partial writes, an append that fails after writing, and what a collector's restart reads back: an append happens whole or not at all, as one step.
- `EventHistoryLaws.NumbersAddUp`: one run; a collector that returns to an earlier run's identity, and a browser that reuses one, are excluded by starting from an archive that has nothing of the run.
- Host sampling (`tick`) and health reporting of the collector; the correlation, warnings and statistics of the summary after the merge, and its completeness of incident windows.
- `SendTrace.Summarize`: the stage-timing percentiles.
- `Coverage.CollectionCoverage`: timestamps are exact reals; a value that is not finite is an invalid row.
- `BufferHelper.Registry.TurnOn`: installing and removing hooks is the single outcome `hooked`; the status text, its counters and the error list are left out; a listener or a list of receivers that throws is not modelled.
