# Verification of the NINJAM client core

Dafny models of the parts of this repository whose correctness spans many steps, and proofs of
what they are for. Classes, arrays and loops follow the C++ code where it changes state in
place. Each such method is proved to do what a function on values says, and the theorems are
about runs of those functions: what never happens in them, and what must.

* **Remote audio channels** (`IntervalTag`, `Channels`, `RemoteUser`, `Alignment`,
  `AlignmentLimit`, `SwapAlignment`, `ChannelRuns`, `ChannelRules`, `QueueLosses`, `LateStarts`,
  `Rejoining`): the three-place
  queue of a channel, holds, late starts, silences, rejoining and the alignment of a user's
  channels under wrap-around interval numbers.
* **Video** (`VideoBuffer`, `VideoStream`, `VideoQueue`, `VideoRouting`, `VideoSync`,
  `VideoWaits`, `VideoRules`, `VideoBytes`, `VideoBytesRuns`, `VideoLosses`, `VideoSystem`, `VideoState`): reassembly of
  frames from WRITEs, the pipeline from accumulating to playing, routing by GUID, the match of
  each interval with its audio, and what plays of a download byte for byte.
* **The audio callback** (`Pacing`, `FramePacing`): blocks, interval boundaries, frame pacing.
* **Framing** (`HeapBuf`, `Connection`, `NetMessage`, `WireFormat`, `NetConnection`, `EndToEnd`,
  `Delivery`): from the growing buffer up to two ends of a connection and any behaviour of the
  socket between them: nothing wrong is returned, and everything is.
* **Session timeline** (`Timeline`), **stable sort and sorted map** (`MergeSort`, `AssocArray`),
  **log lines** (`LineParse`, `LineTokens`), **record and chat messages** (`Records`, `RecordKinds`,
  `RecordMessages`).
* **SHA-1 and the random generator** (`Sha1`, `Sha1Rotation`, `Sha1Vectors`, `Rng`).
* **Reverb** (`Reverb`, `ReverbDelays`, `ReverbResponse`, `ReverbFilters`, `AudioFx`) and **session recorder**
  (`Recorder`, `RecorderRuns`, `SessionRecorder`) of the Android layer.

Check it with `dafny verify dfyconfig.toml` (Dafny 4.11).

## Where the code does less than its comments say

Each point names the lemma with the exact condition, over all inputs or runs, and one with a
concrete input or run.

* `AddSessionInfo` gives the tail of a split piece the new guid (njclient.cpp:4659). Positions are
  right. Input: `SplitTailChangesGuid`; condition: `GuidIsLatestIffNotSplit`.
* `prev_ds_guid` is refreshed only at swaps that evaluate `next`, so after an empty swap a match
  with it is stale. Run: `StalePrevStartsLate`; condition: `VideoStartsWithItsAudio`.
* The last complete frame's slice runs to the end of the data, so it is handed over with the start
  of the next one attached: any buffer with part of a frame in it is an input. Condition:
  `LastSliceExactIffNothingPending`.
* The alignment compares 32-bit numbers. Input: `HalfRangeApartDropsAudio`, two channels 2^31
  apart; condition: `TwoAlignIffHalfRange`. `AlignmentOutcome` covers any number of channels
  within half the range.
* With the late-start guard on, a queued interval can be replaced. Run: `TwoChannelsCanLose`, at a
  steady tempo; condition: `LosesIffTwoAhead`. With one channel it cannot: `OneChannelFromIdle`.
* A recorder whose writer runs a whole ring ahead loses what it holds. Run: `WholeRingIsLost`;
  condition: `NothingLostIff`.
* After ten encoder failures in a row a drain stops before it releases the chunk it just fed. The
  final drain of stop() feeds that chunk again, or, if it gives up itself, never feeds what is
  behind it. Input: `TenthFailure`; condition: `WholeRecording`.
* A HOLD clears the append flags (njclient.cpp:3829) while the interval stays in `next`, where a
  WRITE is not looked for, so the next one goes to `accumulating` and the interval plays without
  it. Run: `HeldIntervalLosesFrame`; conditions: `PlayingIsWholeIff` over runs, `StraysIff` and
  `SwapStraysIff` at a state and at a swap. A HOLD with no WRITE before the next swap moves the
  interval on loses nothing, and a late WRITE of another download, which takes the append flags,
  can do the same as a HOLD, so the condition is the stray itself.
* FALLBACK keeps the count of bytes pending in `accumulating` (njclient.cpp:4111-4113). By itself
  that loses nothing, also in the middle of a frame: `FallbackMovesAll`. When a later WRITE of the
  download strays, that count cuts it: `StrayTakenForRest`. Run: `FallbackHandsOverGarbage`;
  condition: `PlayingIsWholeIff`.

## Model

| member | source | states |
|---|---|---|
| IntervalTag.AheadIsDistance | core/ninjamclient/libninjamcore/njclient.cpp:3486-3491 | the difference of two 32-bit interval numbers, read as a signed int, is the true distance exactly when the true numbers are within half the range of each other |
| IntervalTag.TagBytes | core/ninjamclient/libninjamcore/njclient.cpp:573-586 | a tagged GUID byte by byte: the number with its high byte first, N, Z and 1 behind it, and the six bytes two sessions are compared by |
| IntervalTag.MakeIntervalGuid | core/ninjamclient/libninjamcore/njclient.cpp:3426-3439 | a GUID tagged on sending reads back as the interval number modulo 2^32, the session and the channel it was tagged with; its first two bytes stay as drawn |
| ChannelRuns.EachIntervalPlaysOnce | core/ninjamclient/libninjamcore/njclient.cpp:3629-3684 | over any run of in-order arrivals, silences, mode changes, subscriptions, ENDs, live advances and swaps (with late starts, alignment and rejoining), the numbers a channel plays strictly increase, a hold is at most one swap, and the second queue place is used only when the first is |
| ChannelRuns.StepKeepsOrder | core/ninjamclient/libninjamcore/njclient.cpp:3644-3684 | the invariant behind it, kept by every single event: what played is below what is queued, which rises up to the last arrival |
| ChannelRules.AllStartOrWait | core/ninjamclient/libninjamcore/njclient.cpp:3644-3684 | on a subscribed channel, whatever swaps are late or held, every download that found room has started or is queued, in order, each once |
| ChannelRules.AllStart | core/ninjamclient/libninjamcore/njclient.cpp:3644-3684 | so two swaps that are neither late nor held start everything that came |
| ChannelRules.SwapRule | core/ninjamclient/libninjamcore/njclient.cpp:3645-3682 | what a swap leaves in each place of a channel that waits, of a late one, and of one that moves up, heard or not |
| ChannelRules.ArrivalRule | core/ninjamclient/libninjamcore/njclient.cpp:4779-4796 | where a download goes with each place free or taken, and that a silence leaves what a download that cannot be decoded leaves |
| ChannelRules.ModeRule | core/ninjamclient/libninjamcore/njclient.cpp:1380-1411 | what a mode change drops, and when the channel must find its place again |
| ChannelRules.GuardRule | core/ninjamclient/libninjamcore/njclient.cpp:3566-3571 | the guard in numbers: as configured, or a quarter of length * 1000 / srate when that is less |
| ChannelRules.OtherSessionsStay | core/ninjamclient/libninjamcore/njclient.cpp:3468-3491 | two channels of different sessions stop the alignment |
| ChannelRules.SwapTries | core/ninjamclient/libninjamcore/njclient.cpp:3683-3684 | at every swap each marked channel, and no other, has its turn to rejoin |
| QueueLosses.HoldsLoseNothing | core/ninjamclient/libninjamcore/njclient.cpp:3552-3557 | with untagged downloads, no late-start guard and at most one queue event per channel between swaps, queued intervals plus hold are at most one after every swap, and no arrival ever replaces a queued interval |
| LateStarts.LosesIffTwoAhead | core/ninjamclient/libninjamcore/njclient.cpp:3629-3684 | with the late-start guard as computed, capped at a quarter interval and compared with the age of the downloads: an untagged channel loses a queued interval in a run if and only if over some stretch its downloads are two ahead of the swaps that were neither held nor late, and another download or a silence comes |
| LateStarts.OneChannelFromIdle | core/ninjamclient/libninjamcore/njclient.cpp:3559-3593 | so a user who sends on one channel at a steady tempo never loses an interval, with the guard set to anything |
| LateStarts.TwoChannelsCanLose | core/ninjamclient/libninjamcore/njclient.cpp:3573-3593 | with two channels and the guard on one can be lost at a steady tempo: the young download of one makes a second swap late while two are queued on the other |
| Rejoining.RejoinFindsDepth | core/ninjamclient/libninjamcore/njclient.cpp:3377-3414 | if the times compared, ENDs or BEGINs, lie within a quarter interval of a regular grid, the queue position estimated for a rejoining channel is the exact number of intervals between what the sibling plays and ours, whichever queue entry was nearest |
| Rejoining.RejoinHoldsIfAhead | core/ninjamclient/libninjamcore/njclient.cpp:3415-3424 | so the rejoining channel waits one swap exactly when its interval is later than the one the sibling plays and nothing is queued behind it |
| Rejoining.RejoinTriesUntil | core/ninjamclient/libninjamcore/njclient.cpp:3352-3378 | when the mark stays for the next swap: exactly while there is nothing to place yet, or siblings that could be followed and none of them plays |
| Alignment.AlignmentOutcome | core/ninjamclient/libninjamcore/njclient.cpp:3459-3542 | with one session and tagged queues whose numbers span less than half the range: alignment ends with every aligned channel on the latest interval with no hold, or with every one on the earliest, held or with a full queue; intervals are dropped only in the first case, only older ones, and that case arises exactly when some channel on the latest interval did not just join and all others have it queued |
| Alignment.DropsOlderPrefix | core/ninjamclient/libninjamcore/njclient.cpp:3517-3529 | what is dropped from one queue is a prefix, all of it older than the target, and the first entry kept is not |
| Alignment.SkipCondition | core/ninjamclient/libninjamcore/njclient.cpp:3492-3511 | the skip test on 32-bit numbers decides exactly the skip condition on the true numbers |
| AlignmentLimit.TwoAlignIffHalfRange | core/ninjamclient/libninjamcore/njclient.cpp:3486-3541 | two channels of one session, nothing queued: the alignment makes the one ahead wait for the one behind if and only if their true distance modulo 2^32 is above 0 and below 2^31 |
| AlignmentLimit.HalfRangeApartDropsAudio | core/ninjamclient/libninjamcore/njclient.cpp:3489-3529 | an input on the other side: two channels exactly 2^31 apart each look behind the other, and one loses the interval it plays |
| RemoteUsers.RemoteUser.StartPlaying | core/ninjamclient/libninjamcore/njclient.cpp:4779-4796 | a download goes to the first free queue place, or replaces the last one, and one that cannot be decoded empties that place; no other channel changes |
| RemoteUsers.RemoteUser.AddSilence | core/ninjamclient/libninjamcore/njclient.cpp:1473-1486 | an announced silence empties the queue place a download would have taken |
| RemoteUsers.RemoteUser.SetInfo | core/ninjamclient/libninjamcore/njclient.cpp:1380-1411 | a change of voice-chat or session mode empties the queue and sets the rejoin mark only on the way from voice chat to interval mode |
| RemoteUsers.RemoteUser.SetSubscribed | core/ninjamclient/libninjamcore/njclient.cpp:4199-4239 | unsubscribing empties the queue, subscribing asks for a rejoin, and repeating either changes nothing |
| RemoteUsers.RemoteUser.LateStartGuardMs | core/ninjamclient/libninjamcore/njclient.cpp:3566-3571 | the guard is what is configured, at most a quarter of the interval, and never negative |
| RemoteUsers.RemoteUser.LateStartAge | core/ninjamclient/libninjamcore/njclient.cpp:3576-3593 | the age returned is the least among downloads about to start inside the guard, and -1 when there is none |
| RemoteUsers.RemoteUser.AlignUserChannels | core/ninjamclient/libninjamcore/njclient.cpp:3459-3542 | the in-place loops over the channel array do what the alignment function of AlignmentOutcome says |
| RemoteUsers.RemoteUser.HoldIntervalChannel | core/ninjamclient/libninjamcore/njclient.cpp:3552-3557 | a hold never exceeds one swap, is none when something is queued, and touches nothing else |
| RemoteUsers.RemoteUser.RejoinIntervalGrid | core/ninjamclient/libninjamcore/njclient.cpp:3352-3424 | the in-place rejoin does what the function of RejoinFindsDepth says, with every way it gives up or waits |
| RemoteUsers.RemoteUser.OnNewInterval | core/ninjamclient/libninjamcore/njclient.cpp:3631-3684 | one user at a swap, in place: the step that the run theorems are about, and late exactly when some download about to start is younger than the guard computed from the interval length |
| SwapAlignment.NewcomersDropNothing | core/ninjamclient/libninjamcore/njclient.cpp:3660-3683 | at a swap before which every channel on the latest interval played nothing, no channel loses an interval to the alignment |
| SwapAlignment.DropsIff | core/ninjamclient/libninjamcore/njclient.cpp:3492-3529 | exactly when the alignment of a swap drops an interval, in numbers and queues before and after it |
| VideoBuffers.ReassemblyRoundTrip | core/ninjamclient/libninjamcore/njclient.cpp:1723-1743 | for any frames of any sizes, cutting them at 9216 bytes and taking the WRITEs in gives back the exact bytes, every frame offset and the frame count, with nothing pending |
| VideoBuffers.DispatchIsExact | core/ninjamclient/libninjamcore/njclient.cpp:1044-1056 | the slice handed to the application for every frame is exactly the body sent |
| VideoBuffers.ItemBytes | core/ninjamclient/libninjamcore/njclient.cpp:1722-1731 | a frame on its way: four bytes of length, the high one first, then the body |
| VideoBuffers.LastSliceExactIffNothingPending | core/ninjamclient/libninjamcore/njclient.cpp:1046-1049 | while later bytes are in the buffer the last complete frame is handed over with them attached: it is exact if and only if no frame is in progress |
| VideoBuffers.ReceivedSoFar | core/ninjamclient/libninjamcore/njclient.cpp:1723-1743 | after any number of the WRITEs the buffer holds the first frames and part of the next, so the previous row covers every moment |
| VideoBuffers.SendItem | core/ninjamclient/libninjamcore/njclient.cpp:2263-2292 | no WRITE is over the limit, only the last carries END, and their bytes are the item cut in order |
| VideoBuffers.ReassembleMoving | core/ninjamclient/libninjamcore/njclient.h:430-449 | copying the buffer to another object before any WRITE, also in the middle of a frame, does not change the outcome |
| VideoBuffers.VideoRecvBuffer.CopyFrom | core/ninjamclient/libninjamcore/njclient.h:430-449 | everything is copied, including the start of a frame still arriving |
| VideoBuffers.VideoRecvBuffer.TakeWrite | core/ninjamclient/libninjamcore/njclient.cpp:1721-1743 | one WRITE in place, and whether it completed a frame |
| VideoRouting.AppendTargetCarriesGuid | core/ninjamclient/libninjamcore/njclient.cpp:1645-1705 | in every reachable state, a stream appending to a tracked download has its flags on a buffer with that download's guid |
| VideoRouting.WritesStayWithTheirGuid | core/ninjamclient/libninjamcore/njclient.cpp:1645-1710 | in every reachable state, the bytes of a tracked download are looked for in the stream its BEGIN named and go only to a buffer that carries the download's guid |
| VideoRouting.StepKeepsInvariant | core/ninjamclient/libninjamcore/njclient.cpp:1814-1847 | the routing invariant is kept by BEGIN, WRITE, END, user leave, foreground reset, disconnect and swap, each for all streams |
| VideoRouting.FoundInOwnStream | core/ninjamclient/libninjamcore/njclient.cpp:2411-2423 | the search by guid finds the stream the BEGIN named and no other |
| VideoQueues.PlaysAfterItsPosition | core/ninjamclient/libninjamcore/njclient.cpp:2425-2435 | audio at queue position n plays after n swaps at which every channel advances, and until then its position counts down by one per swap |
| VideoQueues.IntervalCountsDown | core/ninjamclient/libninjamcore/njclient.cpp:2449-2468 | the same step for the position found by interval number and session |
| VideoWaits.PositionMeans | core/ninjamclient/libninjamcore/njclient.cpp:2425-2468 | the position searched for is there exactly when some channel has the audio, and 0 exactly when the first that has it plays it |
| VideoSync.VideoStartsWithItsAudio | core/ninjamclient/libninjamcore/njclient.cpp:3811-4090 | for any order of arrivals, while the audio advances one interval per swap with no hold: a video interval promoted from pending, or whose own audio was awaited, starts at the swap where the audio after its marker's does; one that starts as a match of the audio heard before does so if and only if the previous swap evaluated next too |
| VideoSync.StartsAreWhatPlays | core/ninjamclient/libninjamcore/njclient.cpp:3816-4116 | that list of starts is complete: playing changes at a swap only to its last entry |
| VideoSync.StalePrevStartsLate | core/ninjamclient/libninjamcore/njclient.cpp:4086-4090 | a steady run of three video intervals with markers of their own, in which an empty swap leaves prev_ds_guid stale and the late video starts one interval late |
| VideoSync.RunInStep | core/ninjamclient/libninjamcore/njclient.cpp:3811-4125 | the invariant over whole runs: what waits in pending names the last swap's audio, what is awaited is not yet due, prev_ds_guid is what was heard at the last evaluating swap |
| VideoWaits.WaitsUntilItsAudio | core/ninjamclient/libninjamcore/njclient.cpp:3836-3845 | at any swap at which no queue of the session has its audio or a later one, the oldest interval that waits by number stays the oldest, unless both places are taken and a third is put behind |
| VideoWaits.AwaitedStarts | core/ninjamclient/libninjamcore/njclient.cpp:3836-3881 | in every steady run it starts at exactly the swap at which the audio after its marker's starts to play, unless it was pushed out, its user left, or a later audio came without that one |
| VideoWaits.QueuedStarts | core/ninjamclient/libninjamcore/njclient.cpp:3836-3881 | the same for an interval whose marker's audio is queued: it goes to pending when that audio plays, and starts one swap later |
| VideoWaits.MatchedStarts | core/ninjamclient/libninjamcore/njclient.cpp:4035-4085 | an interval whose marker names audio that plays at a swap starts at the next swap |
| VideoWaits.HeldThreeTimes | core/ninjamclient/libninjamcore/njclient.cpp:3966-4046 | an interval whose audio is in no queue is kept for three swaps and dropped at the fourth |
| VideoWaits.StartsAtFirstFrame | core/ninjamclient/libninjamcore/njclient.cpp:3816-4116 | what starts at a swap starts with its first frame, and nothing else moves the frame to hand over next |
| VideoBytesRuns.PlayingIsWholeIff | core/ninjamclient/libninjamcore/njclient.cpp:1645-1804 | over every run of one stream: what plays of a download is the bytes of all its WRITEs so far, in order and with the right frames, if and only if none of them strayed, that is, was put into accumulating after the download had left it; otherwise bytes are missing |
| VideoBytesRuns.WholeDownloadPlays | core/ninjamclient/libninjamcore/njclient.cpp:1022-1061 | with all WRITEs come: the data is exactly that of the frames sent if and only if none strayed, and then every slice handed to the application is the body sent |
| VideoBytesRuns.StraysIff | core/ninjamclient/libninjamcore/njclient.cpp:1682-1704 | in every reachable state, the next WRITE of a download that left accumulating strays exactly when accumulating still has its guid, the append flags are not for it, and it is neither playing nor pending nor awaiting |
| VideoBytesRuns.SwapStraysIff | core/ninjamclient/libninjamcore/njclient.cpp:3829-4042 | in every reachable state, of the swaps that find a download in next while it arrives, exactly those that hold it there or drop it make its next WRITE stray |
| VideoBytesRuns.FallbackMovesAll | core/ninjamclient/libninjamcore/njclient.cpp:4091-4116 | a FALLBACK in the middle of a frame loses nothing by itself: what came of the frame moves and the rest follows it; accumulating is left waiting for that rest |
| VideoBytesRuns.StrayTakenForRest | core/ninjamclient/libninjamcore/njclient.cpp:1723-1743 | the next WRITE that strays there is cut by what was missing of that frame, and becomes a frame without a length |
| VideoLosses.HeldIntervalLosesFrame | core/ninjamclient/libninjamcore/njclient.cpp:3829-4005 | a run: an interval already in next is held at a swap with no audio, its second frame strays, and it plays without that frame, though every WRITE and the END came |
| VideoLosses.FallbackHandsOverGarbage | core/ninjamclient/libninjamcore/njclient.cpp:4091-4116 | a run: a FALLBACK in the middle of a frame, another interval takes over, and the rest of the frame is handed to the application as a frame the sender never sent |
| VideoSystem.EachStreamRunsAlone | core/ninjamclient/libninjamcore/njclient.cpp:3811-4125 | every stream of any run of the whole receiver is a run of one stream from its creation, with its user's channels at each swap; so the previous rows hold of each |
| VideoRecvStates.VideoRecvState.OnBegin | core/ninjamclient/libninjamcore/njclient.cpp:1541-1593 | BEGIN on the buffers and flags in place: the append target completes, next with a marker waits for its own audio, and a new download accumulates |
| VideoRules.BeginRule | core/ninjamclient/libninjamcore/njclient.cpp:1541-1593 | after a BEGIN nothing is appended to and next is free; what was in next waits if it names its audio, by the number of the one after it |
| VideoRecvStates.VideoRecvState.OnWrite | core/ninjamclient/libninjamcore/njclient.cpp:1662-1804 | WRITE in place: the guid picks the buffer, a late WRITE turns the flags, a completed frame may start the interval moving to next |
| VideoRecvStates.VideoRecvState.OnEnd | core/ninjamclient/libninjamcore/njclient.cpp:1811-1843 | END in place: the frame count becomes final wherever the interval is |
| VideoRules.EndRule | core/ninjamclient/libninjamcore/njclient.cpp:1814-1847 | after an END the frames its interval has, wherever it is, are all there will be, and they set the pace; what still accumulates moves on or is dropped |
| VideoRecvStates.VideoRecvState.OnSwap | core/ninjamclient/libninjamcore/njclient.cpp:3816-4125 | the swap in place: promote, sweep the awaited intervals, then evaluate, fall back or count an empty swap; it does the step all run theorems are about, those on what must start (AwaitedStarts, QueuedStarts, MatchedStarts) included |
| VideoRecvStates.VideoRecvState.OnUserLeave | core/ninjamclient/libninjamcore/njclient.cpp:1446-1461 | what a leaving user resets, and that playing and the append flags stay |
| VideoRecvStates.VideoRecvState.OnForegroundReset | core/ninjamclient/libninjamcore/njclient.cpp:2507-2525 | everything is forgotten but the counters the code keeps |
| VideoRecvStates.AudioQueuePosition | core/ninjamclient/libninjamcore/njclient.cpp:2425-2435 | the search loops find the position the lemmas above speak of |
| VideoRecvStates.AudioQueuePositionOfInterval | core/ninjamclient/libninjamcore/njclient.cpp:2449-2468 | the same by interval number; when it is not found, passed tells exactly whether some queue holds a later interval of that session |
| VideoRecvStates.HearAudio | core/ninjamclient/libninjamcore/njclient.cpp:3926-3939 | the scan prefers the channel that plays the marker's audio and falls back to the first audible one |
| IntervalClocks.SamplesExactly | core/ninjamclient/libninjamcore/njclient.cpp:942-965 | the interval length computed in three floating steps is, over the reals, 60 * bpi * srate / bpm cut to whole samples, and the two range checks accept exactly the lengths that fit |
| IntervalClocks.IntervalLasts | core/ninjamclient/libninjamcore/njclient.cpp:934-978 | counting sample by sample, an interval lasts exactly its length: no boundary before, one then |
| IntervalClocks.CallsCompose | core/ninjamclient/libninjamcore/njclient.cpp:934-978 | cutting a stretch of samples into audio calls in any way leaves the clock in the same state |
| IntervalClocks.TempoAtBoundary | core/ninjamclient/libninjamcore/njclient.cpp:937-968 | the first sample of an interval, in numbers: with a tempo announced that fits, the length L has L * bpm <= 60 * bpi * srate < (L+1) * bpm and the metronome its share of it; else length and tempo stay |
| IntervalClocks.TempoLasts | core/ninjamclient/libninjamcore/njclient.cpp:868-978 | a tempo announced at any moment leaves the interval under way as it is, and the next one lasts exactly that many samples |
| IntervalClocks.FirstInterval | core/ninjamclient/libninjamcore/njclient.cpp:937-968 | a new clock: 32 beats at 120 a minute last 16 seconds at every sample rate |
| IntervalClocks.IntervalClock.AudioProc | core/ninjamclient/libninjamcore/njclient.cpp:932-1075 | the blocks of one call tile it exactly, none crosses an interval boundary, each knows its place in its interval, and the clock ends where single samples would leave it, so that TempoLasts is about it |
| IntervalClocks.IntervalClock.UpdateBpmInfo | core/ninjamclient/libninjamcore/njclient.cpp:868-878 | beat info that makes no sense is ignored, other info waits for the next boundary |
| IntervalClocks.IntervalClock.NewInterval | core/ninjamclient/libninjamcore/njclient.cpp:939-977 | at a boundary new beat info is taken if its length fits, and the length and the metronome interval are then those of the tempo, in numbers; else the old is restored |
| FramePacing.ThresholdsGrow | core/ninjamclient/libninjamcore/njclient.cpp:1033-1041 | no threshold wraps, they grow with the frame, and all lie before the interval's end |
| FramePacing.DueWhen | core/ninjamclient/libninjamcore/njclient.cpp:1022-1041 | the first three frames are due at once, and frame k of n from the sample on at which the fraction (k-2)/(n-2) of the interval has passed, with n from this interval, else the last one that finished |
| FramePacing.InOrderOnce | core/ninjamclient/libninjamcore/njclient.cpp:1034-1060 | however the audio blocks fall and the network appends in between, no frame is handed over twice or out of order |
| FramePacing.NoneMissed | core/ninjamclient/libninjamcore/njclient.cpp:1034-1060 | every frame passed was handed over at some block, unless it had no bytes at that time |
| FramePacing.AllByTheEnd | core/ninjamclient/libninjamcore/njclient.cpp:1022-1060 | with the total known, all frames are out exactly from the position at which the last one is due, and always by the interval's end |
| FramePacing.WholeIntervalPlays | core/ninjamclient/libninjamcore/njclient.cpp:1022-1060 | from swap to interval end, if the total was known by the last block: every frame exactly once and in order |
| FramePacing.DeliverFrames | core/ninjamclient/libninjamcore/njclient.cpp:1022-1061 | the delivery loop on a stream object hands over the frames ready and due, and advances only the frame index |
| HeapBufs.AllocationHolds | core/ninjamclient/libninjamcore/WDL/heapbuf.h:134-159 | the allocation arithmetic, with its page rounding and granularity limits, always holds the size asked for |
| HeapBufs.GrowsByHalf | core/ninjamclient/libninjamcore/WDL/heapbuf.h:143-160 | a buffer that must grow takes half as much again, or a granule, or whole pages when granules are large |
| HeapBufs.ShrinksOnlyWhenAsked | core/ninjamclient/libninjamcore/WDL/heapbuf.h:134-146 | one that holds what is asked for is kept, unless it may shrink and less than half of it would do |
| HeapBufs.HeapBuf.Resize | core/ninjamclient/libninjamcore/WDL/heapbuf.h:111-203 | resizing keeps the first cells, whether it reallocates or not |
| HeapBufs.Queue.Add | core/ninjamclient/libninjamcore/WDL/queue.h:52-64 | appends at the end, whatever was already consumed in front |
| HeapBufs.Queue.Advance | core/ninjamclient/libninjamcore/WDL/queue.h:104-109 | drops from the front; the position never leaves the buffer, also for counts out of range |
| HeapBufs.Queue.Compact | core/ninjamclient/libninjamcore/WDL/queue.h:111-129 | moving the contents to the front changes nothing a reader sees |
| Connections.Connection.Send | core/ninjamclient/libninjamcore/WDL/jnetlib/connection.cpp:328-355 | the send ring is a byte queue: all bytes are appended across the wrap, or none when they do not fit |
| Connections.Connection.PeekBytes | core/ninjamclient/libninjamcore/WDL/jnetlib/connection.cpp:367-392 | a copy of the oldest bytes received, across the wrap |
| Connections.Connection.RecvBytes | core/ninjamclient/libninjamcore/WDL/jnetlib/connection.cpp:394-401 | drops exactly the oldest bytes |
| Connections.Connection.Run | core/ninjamclient/libninjamcore/WDL/jnetlib/connection.cpp:193-285 | no byte is lost, doubled or reordered between the rings and the wires, and exactly as much moves as the socket and the room allow, in two calls at a ring's end |
| Connections.Connection.RunMoves | core/ninjamclient/libninjamcore/WDL/jnetlib/connection.cpp:193-285 | of what is to be sent or received one run moves at least a byte, unless there is none, no room, or the socket moves none |
| NetMessages.RefusedIffUnsendable | core/ninjamclient/libninjamcore/netmsg.cpp:53-73 | the receiver refuses a header exactly when the message has the reserved type or more than 16384 bytes |
| NetMessages.HeaderReadsBack | core/ninjamclient/libninjamcore/netmsg.cpp:75-88 | an accepted header is the header of the type and size read from it |
| NetMessages.UniqueReading | core/ninjamclient/libninjamcore/netmsg.cpp:53-88 | a byte stream has one reading: whole messages at its front are the first messages sent |
| WireFormat.MessageBytes | core/ninjamclient/libninjamcore/netmsg.cpp:75-88 | a message byte by byte: the type, the size with its low byte first, the data |
| WireFormat.RefusedBytes | core/ninjamclient/libninjamcore/netmsg.cpp:53-67 | the headers refused: type 255, or four size bytes, low one first, above 16384 |
| NetMessages.NetMessage.ParseMessageHeader | core/ninjamclient/libninjamcore/netmsg.cpp:53-73 | needs five bytes, refuses bad headers, changes the message only when it accepts |
| NetMessages.NetMessage.ParseAddBytes | core/ninjamclient/libninjamcore/netmsg.cpp:43-51 | takes exactly what is needed or what is there, behind what it had |
| NetConnections.NetConnection.Send | core/ninjamclient/libninjamcore/netmsg.cpp:232-300 | the message goes to the end of the queue, or breaks the connection when 512 wait |
| NetConnections.NetConnection.Run | core/ninjamclient/libninjamcore/netmsg.cpp:92-221 | one run, with the socket moving any amounts, but a given least one, at each of its many turns: the bytes on their way out gain only a keepalive, those on their way in lose exactly the message returned, both get nearer unless there are none, and keepalive, timeout and both clocks follow exactly |
| NetConnections.NetConnection.SendStep | core/ninjamclient/libninjamcore/netmsg.cpp:117-155 | one turn of the sending loop moves bytes from the message to the ring in order, and makes progress |
| NetConnections.NetConnection.SendQueued | core/ninjamclient/libninjamcore/netmsg.cpp:114-159 | afterwards nothing is queued or at most 64 bytes are free, and if anything was held and nothing was in the ring, some of it has left |
| NetConnections.NetConnection.KeepAlive | core/ninjamclient/libninjamcore/netmsg.cpp:104-112 | a keepalive is queued exactly when nothing waits and the time is up |
| EndToEnd.FlowIsPrefix | core/ninjamclient/libninjamcore/netmsg.cpp:92-221 | if every byte sent is part of a message returned or on its way in order, the messages returned are the first ones sent, and all of them once nothing is on its way |
| EndToEnd.NeverRefused | core/ninjamclient/libninjamcore/netmsg.cpp:180-188 | what waits at the receiver of a fair sender is never refused as a bad header |
| EndToEnd.Converse | core/ninjamclient/libninjamcore/netmsg.cpp:92-300 | for any schedule of sends and runs at both ends and any partial socket transfers: what each end's Run returned is a prefix, byte for byte and in order, of what the other sent; all of it when nothing is on its way; and no header is refused |
| Delivery.Settle | core/ninjamclient/libninjamcore/netmsg.cpp:92-221 | from any point on with nothing more sent: when both ends keep running and the socket moves a byte whenever it can, after three rounds for each byte on its way nothing is, and what was returned is exactly what was sent; in rounds that are in time no keepalive is sent and no end gives up |
| Delivery.Deliver | core/ninjamclient/libninjamcore/netmsg.cpp:92-300 | the same after any schedule of sends and runs: with three more rounds for each byte sent, each end was handed all messages of the other |
| Delivery.NothingHalf | core/ninjamclient/libninjamcore/netmsg.cpp:161-205 | a receiver with part of a message and nothing more on its way cannot be, so the runs end with nothing left |
| SessionTimeline.LatestAddedWins | core/ninjamclient/libninjamcore/njclient.cpp:4633-4700 | after any additions, at every time: the media position is that in the most recently added segment covering it, and it is uncovered only where no segment was accepted, a later one left less than 0.05 s of its piece, or the list was full |
| SessionTimeline.FewAdditionsFit | core/ninjamclient/libninjamcore/njclient.cpp:4637-4699 | the list is never longer than twice the additions, so each of the first 32768 finds room |
| SessionTimeline.AddedKeepsOrder | core/ninjamclient/libninjamcore/njclient.cpp:4633-4700 | the list stays sorted and disjoint, every piece at least 0.05 s long and no offset negative |
| SessionTimeline.AddedAt | core/ninjamclient/libninjamcore/njclient.cpp:4653-4698 | one addition, at every time: the new segment where it lies, elsewhere what was there unless its rest is a sliver |
| SessionTimeline.GuidIsLatestIffNotSplit | core/ninjamclient/libninjamcore/njclient.cpp:4657-4661 | the guid reported is the latest segment's own if and only if no later segment with another guid split its piece in front of that time |
| SessionTimeline.SplitTailChangesGuid | core/ninjamclient/libninjamcore/njclient.cpp:4659 | a concrete pair of additions after which the tail plays on under the wrong guid |
| SessionTimeline.SessionList.AddSessionInfo | core/ninjamclient/libninjamcore/njclient.cpp:4633-4700 | the loops that cut, delete and insert in place do the addition the lemmas are about |
| SessionTimeline.SessionList.GetSessionInfo | core/ninjamclient/libninjamcore/njclient.cpp:4597-4631 | the lookup is that of the timeline two tolerances later, with the position of the asked time; when it finds nothing, nothing is there for the time it returns, and something starts at its end unless it is the full second |
| MergeSorts.SortsStably | core/ninjamclient/libninjamcore/WDL/mergesort.h:6-64 | for any total preorder the result is sorted, has the same elements, and keeps equal elements in their order |
| MergeSorts.MergedStable | core/ninjamclient/libninjamcore/WDL/mergesort.h:25-63 | merging puts the equal elements of the first part before those of the second |
| MergeSorts.MergeSort | core/ninjamclient/libninjamcore/WDL/mergesort.h:6-64 | the in-place recursion with scratch space, including the early exit that leaves the right tail where it is, computes that sort and writes nothing outside its range |
| AssocArrays.ResortedFirst | core/ninjamclient/libninjamcore/WDL/assocarray.h:189-208 | sorting and then dropping repeated keys leaves a strictly sorted array in which every lookup finds the first value added |
| AssocArrays.DedupedStrict | core/ninjamclient/libninjamcore/WDL/assocarray.h:290-312 | removing repeated neighbours from a sorted array leaves strictly rising keys |
| AssocArrays.AssocArray.LowerBound | core/ninjamclient/libninjamcore/WDL/assocarray.h:210-229 | the binary search finds the match, or the place between all smaller and all greater keys |
| AssocArrays.AssocArray.Insert | core/ninjamclient/libninjamcore/WDL/assocarray.h:53-72 | the map afterwards differs at that key only, and the array stays strictly sorted |
| AssocArrays.AssocArray.Delete | core/ninjamclient/libninjamcore/WDL/assocarray.h:74-85 | the map afterwards lacks that key only |
| AssocArrays.AssocArray.Get | core/ninjamclient/libninjamcore/WDL/assocarray.h:326-331 | the value of that key, if it is there |
| AssocArrays.AssocArray.RemoveDuplicateKeys | core/ninjamclient/libninjamcore/WDL/assocarray.h:290-312 | the read and write positions in one array drop exactly the repeats |
| AssocArrays.AssocArray.ResortStable | core/ninjamclient/libninjamcore/WDL/assocarray.h:189-208 | after any unsorted additions: strictly sorted, and the first value added for each key wins |
| LineParsing.PrintThenParse | core/ninjamclient/libninjamcore/njclient.cpp:1943-1967 | any tokens written with the quote chosen for each, or in backticks, are read back as the same tokens, with line ends turned into blanks and backticks into underscores only in those that contain every quote mark |
| LineParsing.LogLineReadsBack | core/ninjamclient/libninjamcore/njclient.cpp:1939-1968 | the whole log line, its head word included |
| LineTokens.WordIsToken | core/ninjamclient/libninjamcore/WDL/lineparse.h:90-150 | for any line: a word without blanks is a token, which ends at a blank or the end |
| LineTokens.QuotedWordIsToken | core/ninjamclient/libninjamcore/WDL/lineparse.h:97-147 | what stands between two equal quotes is a token, and an open quote runs to the end or spoils the line, as asked for |
| LineTokens.CommentEndsLine | core/ninjamclient/libninjamcore/WDL/lineparse.h:99-103 | nothing is read from # or ; on, unless comments are ignored |
| LineTokens.BlanksInFront | core/ninjamclient/libninjamcore/WDL/lineparse.h:85-86 | spaces and tabs in front change nothing; with the three rows above this says what any line reads as |
| LineTokens.WrittenForms | core/ninjamclient/libninjamcore/njclient.cpp:1159-1178 | which of the five ways a token is written, character by character |
| LineParsing.UnchangedIff | core/ninjamclient/libninjamcore/njclient.cpp:1945-1966 | a token comes back unchanged if and only if some quote mark fits it and it has no line end |
| LineParsing.GetConfigStringQuoteChar | core/ninjamclient/libninjamcore/njclient.cpp:1159-1178 | the scan finds whether quotes are needed, and one that fits if there is one |
| LineParsing.Print | core/ninjamclient/libninjamcore/njclient.cpp:1943-1967 | the loop over parameters, with the backtick filter and the line-end pass in place, writes the line the round trip is about |
| LineParsing.LineParser.ParseDestroyBuffer | core/ninjamclient/libninjamcore/WDL/lineparse.h:90-153 | the parser that puts NULs into the line itself finds exactly the tokens, and fails exactly when a quote is not closed |
| RecordLists.ListReadsBack | core/ninjamclient/libninjamcore/mpb.cpp:251-358 | for any kind of record that reads back one by one behind a header: any list, built by appending and read by the parsing loop, comes back in order, and then the loop stops |
| RecordKinds.UserListReadsBack | core/ninjamclient/libninjamcore/mpb.cpp:251-358 | any number of user info records come back in order with their fields cut to size |
| RecordKinds.MaskListReadsBack | core/ninjamclient/libninjamcore/mpb.cpp:593-651 | any number of user masks come back unchanged |
| RecordKinds.ChannelListReadsBack | core/ninjamclient/libninjamcore/mpb.cpp:681-760 | any number of channel records behind a size header, for every field size, come back with the fields the size has room for |
| WireFormat.UserBytes | core/ninjamclient/libninjamcore/mpb.cpp:251-298 | a user info record byte by byte: volume low byte first and signed, channel and pan cut to a byte, two strings |
| WireFormat.MaskBytes | core/ninjamclient/libninjamcore/mpb.cpp:593-619 | a user mask byte by byte: a string, then 32 bits with the low byte first |
| WireFormat.ChannelBytes | core/ninjamclient/libninjamcore/mpb.cpp:681-720 | a channel record byte by byte for every field size, and the size header |
| RecordKinds.UserAdvances | core/ninjamclient/libninjamcore/mpb.cpp:303-358 | for any data, a record read ends behind where it began and inside the data, so the loop terminates |
| RecordKinds.MaskAdvances | core/ninjamclient/libninjamcore/mpb.cpp:623-651 | the same for user masks |
| RecordKinds.ChannelAdvances | core/ninjamclient/libninjamcore/mpb.cpp:724-760 | the same for channel records |
| RecordMessages.RecordMessage.AddUser | core/ninjamclient/libninjamcore/mpb.cpp:251-299 | the builder with its moving pointer appends one encoded record |
| RecordMessages.RecordMessage.ParseUser | core/ninjamclient/libninjamcore/mpb.cpp:303-358 | the parser, for any data, reads the record the list theorem speaks of or says there is none |
| RecordMessages.RecordMessage.AddMask | core/ninjamclient/libninjamcore/mpb.cpp:593-619 | the same for user masks |
| RecordMessages.RecordMessage.ParseMask | core/ninjamclient/libninjamcore/mpb.cpp:623-651 | the same for user masks |
| RecordMessages.RecordMessage.AddChannel | core/ninjamclient/libninjamcore/mpb.cpp:681-717 | the first record brings the size header |
| RecordMessages.RecordMessage.ParseChannel | core/ninjamclient/libninjamcore/mpb.cpp:724-760 | the field size is read from the message header again at every record |
| RecordMessages.ChatRoundTrip | core/ninjamclient/libninjamcore/mpb.cpp:871-936 | a chat message built is parsed into all its five parameters |
| RecordMessages.Build | core/ninjamclient/libninjamcore/mpb.cpp:900-936 | missing parameters are written as empty strings |
| RecordMessages.Parse | core/ninjamclient/libninjamcore/mpb.cpp:871-897 | the result code and parameters for any data, including a string with no end |
| Sha1Stream.WdlSha1.Result | core/ninjamclient/libninjamcore/WDL/sha.cpp:110-133 | for any bytes under 2^61 added in any pieces since the last reset, the digest is SHA-1 as FIPS 180-4 defines it (padding in section 5.1.1, computation in section 6.1.2), and the object is left reset |
| Sha1Stream.WdlSha1.Add | core/ninjamclient/libninjamcore/WDL/sha.cpp:56-108 | adding pieces one after the other is adding their concatenation; the counters, the schedule and the hash words stay in step with the standard |
| Sha1Stream.WdlSha1.FinishBlock | core/ninjamclient/libninjamcore/WDL/sha.cpp:67-101 | the four loops of twenty rounds with their own formulas compute the standard's compression |
| Sha1Stream.QuarterIsRound | core/ninjamclient/libninjamcore/WDL/sha.cpp:76-95 | each loop's formula equals the standard's function and constant for its rounds |
| Sha1Standard.PaddedLength | core/ninjamclient/libninjamcore/WDL/sha.cpp:124-126 | padding completes the last block with as few zero bytes as possible |
| Sha1Rotation.RotlIsRotation | core/ninjamclient/libninjamcore/WDL/sha.cpp:53 | as a number, a word rotated by n is x * 2^n modulo 2^32 plus what that product carries over |
| Sha1Vectors.KnownAnswer | core/ninjamclient/libninjamcore/WDL/sha.cpp:40-133 | the digest of the three bytes abc, computed round by round |
| RngCounter.ReturnsOnlyAfterPeriod | core/ninjamclient/libninjamcore/WDL/rng.cpp:54-58 | a state of n bytes comes back after k steps if and only if k is a multiple of 256^n |
| RngCounter.Reaches | core/ninjamclient/libninjamcore/WDL/rng.cpp:54-58 | from any state every other state of the same size is reached within 256^n steps: the orbit is one cycle |
| RngCounter.Period | core/ninjamclient/libninjamcore/WDL/rng.cpp:54-58 | one round of the lower bytes advances the byte above them 255^n times |
| RngCounter.CycleIsBijective | core/ninjamclient/libninjamcore/WDL/rng.cpp:54-58 | the step is one-to-one, and every state is the step of another |
| RngCounter.NoRepeat | core/ninjamclient/libninjamcore/WDL/rng.cpp:54-58 | no state repeats inside a period |
| RandomGenerator.BlocksNeverRepeat | core/ninjamclient/libninjamcore/WDL/rng.cpp:75-91 | with no entropy added, no two of the first 2^256 blocks hash the same state, and then the sequence starts again |
| RandomGenerator.Generator.constructor | core/ninjamclient/libninjamcore/WDL/rng.cpp:42-42 | the state starts as 32 zero bytes |
| RandomGenerator.Generator.Bytes | core/ninjamclient/libninjamcore/WDL/rng.cpp:75-91 | the bytes drawn are hashes of successive states, the last one cut, and the state moves one step per block |
| RandomGenerator.ByteDrawn | core/ninjamclient/libninjamcore/WDL/rng.cpp:75-91 | byte i drawn is byte i mod 20 of the hash of the state i / 20 steps on |
| RandomGenerator.Generator.RngCycle | core/ninjamclient/libninjamcore/WDL/rng.cpp:54-58 | the loop over the 32 bytes in place is the step the lemmas are about |
| RandomGenerator.Generator.AddEntropy | core/ninjamclient/libninjamcore/WDL/rng.cpp:44-52 | the first 12 bytes come from the old state's hash, the rest from the buffer's |
| Reverb.EveryRunStays | platforms/android/jni/AudioFXProcessor.cpp:105-178 | over every run of blocks, switches, parameter and preset changes, with inputs within m and compressor gains within top: every comb cell stays within M/(1-feedback) and every allpass cell within its input bound/(1-gain) of the preset in use, where M is 4 * m * top, what boost and compressor can make of an input |
| Reverb.OutputStays | platforms/android/jni/AudioFXProcessor.cpp:21-63 | the output of any block of any run is at most 65 times 4 * m * top; with a compressor that never amplifies, 260 times the loudest input |
| Reverb.PresetGain | platforms/android/jni/AudioFXProcessor.h:76-81 | no preset amplifies more than 65 times |
| Reverb.CombStays | platforms/android/jni/AudioFXProcessor.cpp:120-125 | a comb filter never leaves its bound |
| Reverb.AllpassStays | platforms/android/jni/AudioFXProcessor.cpp:139-144 | nor does an allpass filter, nor its output that bound plus gain times input |
| ReverbDelays.CombIsDelay | platforms/android/jni/AudioFXProcessor.cpp:119-125 | the circular buffer is a delay line: the filter obeys its difference equation, and puts out what it took in exactly its length before |
| ReverbDelays.AllpassIsDelay | platforms/android/jni/AudioFXProcessor.cpp:139-144 | the same for the allpass filter |
| ReverbResponse.OutputIs | platforms/android/jni/AudioFXProcessor.cpp:105-158 | every sample of every block of every run with the reverb on is dry * (1 - mix) + wet * mix, the wet signal written as the difference equations of the filters over all samples since the last reset |
| ReverbResponse.MixEnds | platforms/android/jni/AudioFXProcessor.cpp:105-158 | mix 0 leaves a block as boost and compressor made it, mix 1 gives the wet signal alone |
| ReverbResponse.ClickResponse | platforms/android/jni/AudioFXProcessor.cpp:105-158 | a single sample comes out dry at once and is heard wet for the first time 1422 samples later, at 1/16 of its size, or 9/100 with the last preset, times the mix |
| ReverbResponse.SettingsTaken | platforms/android/jni/AudioFXProcessor.cpp:184-214 | each setting becomes the nearest value of its own range, in numbers |
| ReverbResponse.ForgetsOnlyWhenTold | platforms/android/jni/AudioFXProcessor.cpp:184-214 | switching the reverb off and taking a preset start it from silence, nothing else does |
| ReverbFilters.CombFilter.Step | platforms/android/jni/AudioFXProcessor.cpp:120-125 | one sample in place, every index in range |
| ReverbFilters.AllpassFilter.Step | platforms/android/jni/AudioFXProcessor.cpp:140-144 | one sample in place, every index in range |
| ReverbFilters.ReverbSide.Step | platforms/android/jni/AudioFXProcessor.cpp:119-151 | one sample through four comb and two allpass filters with separate buffers |
| AudioFx.AudioFXProcessor.Process | platforms/android/jni/AudioFXProcessor.cpp:21-63 | one callback: settings and reset request are taken once, then both sides go through boost, compressor gain and reverb in place with those |
| AudioFx.AudioFXProcessor.SetParameter | platforms/android/jni/AudioFXProcessor.cpp:197-214 | each of the eight values is cut to its own range, and only that one changes; a preset change asks for a reset |
| AudioFx.AudioFXProcessor.SetEnabled | platforms/android/jni/AudioFXProcessor.cpp:184-195 | each of the three switches; switching the reverb off asks for a reset |
| RecorderRuns.EachFrameOnceInOrder | platforms/android/jni/SessionRecorder.cpp:193-263 | for every interleaving of cell writes, publication, looks, cell reads, feeding and release, up to the final drain, in which every look and read finds the writer within a ring: the frames fed are the first frames written, in order, none twice |
| RecorderRuns.NothingLostIff | platforms/android/jni/SessionRecorder.cpp:224-263 | when the reader has found nothing more, all that is published was fed if and only if no look in the whole run found the writer a whole ring or more ahead |
| RecorderRuns.WholeRecording | platforms/android/jni/SessionRecorder.cpp:108-113 | with the final drain of stop(), after any interleaving: no frame was fed twice if and only if no ten failures in a row came before it; the last frame published was fed if and only if no ten in a row, counted on from before, came in it before its last chunk; with both, the encoder got exactly the frames published, in order |
| RecorderRuns.AheadIsRoomy | platforms/android/jni/SessionRecorder.cpp:193-204 | a writer that stays less than a ring ahead of what is released, at every cell it writes, is enough for that |
| RecorderRuns.WholeRingIsLost | platforms/android/jni/SessionRecorder.cpp:193-204 | an input on the other side: after a whole ring is written with no reading in between, the reader finds nothing at all |
| RecorderRuns.PublishTooMuch | platforms/android/jni/SessionRecorder.cpp:193-204 | a writer that publishes a whole ring or more while the reader waits: whatever happens from then on, the reader never reaches the end of what is published |
| RecorderRing.StepKeeps | platforms/android/jni/SessionRecorder.cpp:193-263 | the invariant, kept by every single memory access of either thread, whatever the writer does; and what the cells hold, as long as there is room at looks and reads |
| RecorderRing.CopyReadsNewest | platforms/android/jni/SessionRecorder.cpp:239-245 | a cell read gives the newest sample stored there, which is the one of its place if and only if the writer is no more than a ring ahead of that place |
| SessionRecorders.SessionRecorder.WriteSamples | platforms/android/jni/SessionRecorder.cpp:193-204 | uninterrupted, appends the frames to what is unread; when that fills the ring, whole rings are gone, the oldest first |
| SessionRecorders.SessionRecorder.DrainRingBuffer | platforms/android/jni/SessionRecorder.cpp:224-263 | uninterrupted, for any results of the encoder: feeds what is unread in order, all of it or up to the tenth failure in a row, and then the chunk just fed stays unread |
| SessionRecorders.SessionRecorder.LastDrains | platforms/android/jni/SessionRecorder.cpp:108-113 | the last drain, whatever is written after it, and the final drain, for any results of the encoder in both: which frames are fed, which of them again, and which never |
| SessionRecorders.GivesUpIff | platforms/android/jni/SessionRecorder.cpp:246-255 | a drain gives up if and only if a tenth failure in a row, counted on from before, falls within its chunks |
| SessionRecorders.TenthFailure | platforms/android/jni/SessionRecorder.cpp:246-255 | after nine failures in a row, a drain whose first chunk fails feeds that chunk only and keeps it: what is behind it is never fed by the final drain, and an earlier drain leaves it to be fed again |

## Left out

- Sockets, name lookup, clocks, files, logging and callbacks: amounts moved, times and whether the encoder failed are parameters or arbitrary values. A connection in another state than connected or closing moves nothing, which is one of the amounts allowed.
- Malloc failure, reference counts, integer overflow of buffer sizes near 2^31, recursive mutexes: each locked section is one atomic step. A queued message is a value, and one queue cell stands for one message pointer.
- The per-call limits of `JNL_Connection::run` and the `wantsleep` results.
- Codecs, resampling, crossfades, level meters, the metronome's sound and session-mode mixing.
- Reverb.OutputStays: the gain the compressor computes for each frame, from exponentials and logarithms of the signal, is any number from 0 to a bound named top; how large it gets is not proved.
- AudioFx.AudioFXProcessor.Process: reals instead of floats; the compressor gains are an input; the two sides are processed one after the other instead of sample by sample in turn (they share nothing else), and the four comb and two allpass filters of a side are six objects instead of rows of two arrays.
- IntervalClocks.SamplesExactly: reals instead of doubles, so rounding of the three steps is not modelled.
- SessionTimeline.LatestAddedWins: times are reals; the tail inserted by a split is not counted against the limit of 65536, as in the code; list order under concurrent readers is not modelled.
- VideoRecvStates.VideoRecvState.OnWrite: the voice-chat delay line is left out; frames of a voice-chat sender leave the buffer at once, and when the line releases them is not modelled.
- VideoRecvStates.VideoRecvState.OnForegroundReset: emptying that delay line is left out.
- VideoBuffers.VideoRecvBuffer.CopyFrom: user name, fourcc and channel index of a buffer are not modelled; the stream they belong to is.
- Users are looked up by name: a stream's swap takes its user's channels as a parameter. The cut of long names at 255 characters is not modelled.
- VideoBuffers.DispatchIsExact: an offset missing from the table after a FALLBACK reads as 0 in the model, where the code would read past the table.
- VideoBytesRuns.PlayingIsWholeIff: one stream on its own, whose download is not a voice-chat sender's, with a BEGIN that is fresh; WRITEs of other downloads in progress and everything else come in any order.
- VideoSync.VideoStartsWithItsAudio: the true interval numbers are a function that tags agree with modulo 2^32, and videos waiting name audio less than half the range away. Intervals with no marker, and FALLBACK, carry no promise in the code and get none here.
- Delivery.Settle: a receive ring of fewer than five bytes never takes a header (see `Receive`), so both rings hold five at least; a least amount of 0 lets the socket stand still, and then nothing is promised but the order.
- ChannelRuns.EachIntervalPlaysOnce: arrivals on a channel are in the sender's order, as TCP delivers them.
- LateStarts.OneChannelFromIdle: a steady tempo is swaps at least an interval apart and a download for each swap that began before it; the clock and the time of each BEGIN are inputs.
- LineParsing.Print: takes any number of tokens; the three-parameter limit and the cut of a line at 1024 bytes are not modelled. Strings hold no NUL.
- LineParsing.LogLineReadsBack: for lines that are not cut at 1024 bytes, as Print is.
- SessionRecorders.SessionRecorder.DrainRingBuffer: the encoder is a list of frames fed and a result for each chunk, given as an input; what MediaCodec does with them, start and metadata are not modelled.
- AssocArrays.AssocArray.ResortStable: the qsort fallback of a failed allocation, the key and value dispose callbacks, Resort and ChangeKey are not modelled.
- The authentication, config and interval transfer messages of mpb.cpp, the other queue accessors of queue.h, test hooks and diagnostics: they would only add easy members.
