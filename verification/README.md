# Verification of the bot and its language-model service

The repository is a Discord bot and the language-model service behind it. Under the I/O lie a few
hand-written concurrent protocols and streaming algorithms. This project models those in Dafny and
proves what they promise.

| file | models |
|---|---|
| `CircularQueue.dfy` | the ring buffer under histories, song queues and cache eviction |
| `Rotation.dfy`, `Failover.dfy`, `Parole.dfy` | scores, benching, parole and the longest-benched fallback; the loop that gives each client one try; when a bench is served |
| `ToolCalls.dfy`, `ToolBridge.dfy` | tool calls over replaceable streams, first against any peer, then against the bot's half |
| `Player.dfy` | the music player's one driver at a time |
| `DownloadCache.dfy`, `SearchResult.dfy` | single-flight downloads with first-in first-out eviction; what each search returns |
| `LayerFraming.dfy` | one mixing layer: reader, channel, mixer |
| `Transcript.dfy`, `ToolIds.dfy`, `Chat.dfy` | histories as messages, stored tool-call ids, the chat loop |
| `Downsampler.dfy`, `Detector.dfy`, `Decoder.dfy`, `Listener.dfy` | one speaker's packets: timestamps to silence, 48 to 16 kHz, wake word windows, debounce |
| `Collections.dfy`, `Runs.dfy`, `Sorting.dfy` | shared facts on sequences: distinctness, cutting into runs, sorting |
| `Conversation.dfy` | utterances at pauses, joined turns, the windows successive wakes transcribe |

How things are modelled:

- Code that one goroutine at a time runs under a lock, or that is not shared, is a class or a method
  over the fields the source has, tied by its `ensures` to a function of the old state.
- Protocols whose point is the interleaving (`ToolCalls`, `ToolBridge`, `Players`, `DownloadCaches`,
  `LayerFraming`) are step systems: a program counter per goroutine, one step per lock-held block or
  channel operation, and a run is any sequence of enabled steps. A block that touches an object with
  its own lock is split there, so the races the code guards against stay visible.
- Clock readings, the outcome of network calls, decoding, downloads and file removal, and whether a
  channel has room are inputs, so every behaviour of them is covered. The neural models are functions
  of their windows. The low pass is the source's own sum over 63 taps of unspecified value, in reals.
- `Around(x, n)` is `x % n` for the only `x` a ring meets (`CircularQueues.AroundIsMod`); the methods
  use `%` as the source does.

Where the code and what it says of itself part ways, the code is followed:

- `failover` is said to give each client one try (llm/server/speech.go:119). It does so exactly when
  the run is over before a bench it caused is served, or every older bench is served at its first
  scan: `Failovers.OneTryEachExactly`, and in terms of how long one try takes `Failovers.TimeoutDecides`.
  The rotation that spoils it is one that `Current`, `Judge` and `Fail` alone can leave behind.
- A benched entry is said to sit out its parole (shared/rotation.go:12-14). A late reward that finds it at
  the bench score takes it straight off the bench (`Paroles.LateRewardSkipsParole`). Until its parole is up
  that, or being the last resort, is exactly what ends a bench: `Paroles.SitsOutExactly`. Any other late
  verdict starts the parole again, a reward too (`Paroles.ParoleRestartsExactly`).
- Late verdicts go on counting against a benched entry, so scores climb without bound exactly when there
  is another entry and some latency is punished: `Paroles.ScoresClimbExactly`.
- A download whose eviction fails leaves its query in the eviction queue with nothing cached, and the slot
  is never won back. The slots lost number the failed evictions of a cached download, so the queue and the
  cache agree exactly when there was none: `DownloadCaches.SlotsLostExactly`. One such failure can end a
  cache of one: `DownloadCaches.OneFailureCanEndTheCache`.
- A pause is measured with the length of the packet after it (discord-bot/audio/decode.go:51), not of the
  one before. It is off by the difference of the two (`Decoders.PauseIsOffByTheLengths`) and right, whenever
  the next packet comes, exactly when they are equally long (`Decoders.MeasuredRightExactly`). So time is
  gained as well as lost (`Decoders.ShorterPacketsGainTime`), and is kept for certain exactly when all
  packets have one length (`Decoders.EqualPacketsAloneKeepTime`).
- A pause of 600 ms is said to separate utterances (discord-bot/audio/listen.go:23-24). With the packets'
  lengths different, shorter ones do or that one does not: `Conversations.SeparatesAtTheGapExactly`,
  `Conversations.UnequalPacketsMislead`. One measured at five seconds or more is reported as none, and
  separates nothing: `Conversations.PausesSeparateExactly`, `Conversations.LongPausesVanish`. Nor is it
  filled in for the detector: `Listeners.KeptApartExactly`.
- Configuration asks for a window in which context and command still are when they are collected
  (discord-bot/config/config.go:211-214). That holds for a wake answered as it is heard
  (`Conversations.PromptAnswersMissNothing`), but a wake may wait behind a slow answer
  (`Conversations.QueuedWakesMissContext`). `Conversations.NothingIsMissedExactly` says how late is too late.
- The stored ids of a reply's tool calls can collide (`ToolIds.NumberedIdsCanCollide`);
  `ToolIds.StoredIdsDistinctExactly` says for which provider ids.
- Audio "before this was already transcribed" (discord-bot/events/voice.go:63), but the windows of
  neighbouring wakes share their end point: `Conversations.InTwoWindowsExactly`.
- The number of requests of a chat is bounded only by how many rounds of tools models call without being
  offered any: for every u, all chats with at most u of those stay within a bound exactly when it allows
  for u more than the plain one: `Chats.RequestsAreBoundedExactly`.
- Downloads are named by site and title (discord-bot/music/ytdl.go:50), so two queries can find one file.
  Evicting one of them takes the file the other serves: `DownloadCaches.FilesAreThereExactly`,
  `DownloadCaches.SharedFilesCanVanish`.

## Model

| member | source | states |
|---|---|---|
| CircularQueues.Conserves | shared/queue.go:51-83 | over any run elements leave in the order they entered, none lost or repeated, and never more than the capacity stay |
| CircularQueues.KeepsTheNewest | shared/queue.go:30-31 | without dequeues the queue is exactly the last capacity elements enqueued |
| CircularQueues.CircularQueue.New | shared/queue.go:32-40 | a capacity that is not positive is an error, otherwise an empty queue |
| CircularQueues.CircularQueue.Enqueue | shared/queue.go:51-68 | what was queued and what came in is what went out and what is queued; the oldest goes out if and only if the queue was full |
| CircularQueues.CircularQueue.Dequeue | shared/queue.go:70-83 | takes the oldest element, or nothing from an empty queue |
| CircularQueues.CircularQueue.Items | shared/queue.go:96-105 | the abstract queue, oldest first |
| CircularQueues.CircularQueue.Clear | shared/queue.go:111-120 | empties the queue |
| Rotations.Rotation.New | shared/rotation.go:51-68 | rejects no items, no parole and disordered thresholds, and starts fresh at the first item |
| Rotations.Rotation.Judge | shared/rotation.go:91-116 | rescored by the verdict, benched at 10 or more, and moved off only if selected |
| Rotations.Rotation.Fail | shared/rotation.go:118-129 | benched outright, and moved off only if selected |
| Rotations.Rotation.Rotate | shared/rotation.go:131-136 | forces the move to the next eligible entry |
| Rotations.Rotation.MoveOn | shared/rotation.go:144-172 | the first eligible entry round from the selection, else the one benched longest ago |
| Rotations.NoneEligible | shared/rotation.go:148-162 | a scan that comes back empty has looked at every entry, the selected one too |
| Failovers.EveryRunIsSound | shared/rotation.go:84-172 | after any interleaving of callers the selection is in range and not benched, scores are not negative, no bench time is in the future |
| Failovers.OneTryEachExactly | llm/server/speech.go:119-148 | for every timing of failing tries: they reach pairwise different clients from every rotation that verdicts on entries handed out by Current can leave, if and only if the timing is InTime |
| Failovers.TimeoutDecides | llm/server/speech.go:122-130 | with d the most one turn of the loop takes, every run is in time if and only if n - 2 turns take less than the parole, or n is at most 2, or the parole is a single nanosecond |
| Failovers.EveryClientIsReached | llm/server/speech.go:119-148 | in time, any one client that is up gets its try |
| Failovers.Failover | llm/server/speech.go:122-148 | the first attempt that is not an error decides: its result, the end of the caller's context, or failure of every client if and only if all are errors; every error is a failure of the entry then current, an answer one verdict on it, a caller who hangs up nothing |
| Failovers.ScoreIsWorstStretch | shared/rotation.go:96-105 | absent a kill the floored score is the greatest weight of any suffix of the verdicts, 2 a punish and -1 a reward |
| Failovers.BenchesOnAWorstStretch | shared/rotation.go:91-116 | whatever other callers do to other entries, a verdict first benches an entry if and only if it is a kill or some stretch ending with it weighs 10 |
| Failovers.KillBenches | shared/rotation.go:96-114 | a kill benches at once from any score, and only when nobody else is eligible is the entry picked again |
| Paroles.SitsOutExactly | shared/rotation.go:22-23 | over any run of any callers, an entry comes off the bench before its parole is up if and only if some late reward finds it at the bench score or some move finds nobody eligible and none benched longer |
| Paroles.PickedEarlyExactly | shared/rotation.go:142-172 | a still benched entry is picked before its parole if and only if nobody at all is eligible and it is the one benched longest |
| Paroles.OffTheBenchExactly | shared/rotation.go:91-172 | one operation takes an entry off the bench if and only if it is such a reward, such a last resort, or a pick after the parole |
| Paroles.ParoleRestartsExactly | shared/rotation.go:106-109 | every other verdict on a benched entry starts its parole again, and nothing else does |
| Paroles.LateRewardSkipsParole | shared/rotation.go:99-101 | for any policy, a run that callers can make in which an entry benched this instant is picked though another is eligible |
| Paroles.ScoresClimbExactly | shared/rotation.go:96-105 | scores are unbounded over runs that callers can make if and only if there are two entries or more and some latency is punished |
| ToolCalls.ReachableInv | llm/server/tools.go:73-205 | the protocol's invariant holds after every interleaving of calls, streams and results |
| ToolCalls.EachCallGetsItsOwnResult | llm/server/tools.go:152-198 | a returned result carries its call's own id and no two calls return the same id, whatever arrives |
| ToolCalls.ReturnsItsResultExactly | llm/server/tools.go:109-177 | over any run a returned call has no result if and only if a failure befell it (no bot, a closed stream, a failed send, a caller gone, an ended stream), and it says which; otherwise it returns the very result put in its channel |
| ToolCalls.ResultsArrived | llm/server/tools.go:93-105 | and that result arrived in the run, on the call's own stream |
| ToolCalls.ArgumentsAreKept | llm/server/tools.go:118-125 | every call is made with the arguments its executor was given |
| ToolCalls.DeliverNeverBlocks | llm/server/tools.go:153-154 | a channel takes at most one value ever, so deliver never blocks the receive loop |
| ToolCalls.TableIsExact | llm/server/tools.go:155-163 | pending holds exactly the calls registered, not delivered to and not gone |
| ToolCalls.IdleStreamHasEmptyTable | llm/server/tools.go:159-163 | with no call in flight on a stream its table is empty |
| ToolCalls.BotIsTheNewestStream | llm/server/tools.go:80-91 | the bot is the newest stream until its own handler clears it, never one closed or done |
| ToolCalls.OldHandlerKeepsNewStream | llm/server/tools.go:84-91 | a handler that ends clears the bot only if no newer stream was installed |
| ToolCalls.NoSendAfterClose | llm/server/tools.go:139-143 | no Send runs on a closed stream, and no two at once |
| ToolCalls.DoneStreamDrains | llm/server/tools.go:148-177 | once a stream is done every call on it has an enabled step and only ever moves nearer to returning |
| ToolBridge.AnswerIsTheToolsOwn | discord-bot/network/tools.go:71-90 | an executor that returns a result returns what the bot's tool returned for that very call |
| ToolBridge.AnExecutorCanSucceed | llm/server/tools.go:133 | for any arguments and any output of the tool, a run in which the executor returns that output |
| ToolBridge.ToolRunsAtMostOnce | discord-bot/network/tools.go:77-89 | a tool runs on its own call's arguments, at most once per call |
| ToolBridge.NoResultIsWasted | llm/server/tools.go:188-198 | an arriving result is dropped if and only if its call has already returned |
| Players.ReachableInv | discord-bot/music/player.go:61-159 | the player's invariant holds for any number of callers in any interleaving |
| Players.StartedMeansOneDriver | discord-bot/music/player.go:80-86 | started holds if and only if a driver lives, and there are never two |
| Players.RegisterFindsLayerFree | discord-bot/music/player.go:145-151 | registering layer 0 never finds it taken |
| Players.AcceptedSongsKeepTheirPlace | discord-bot/music/player.go:51-54 | an accepted song is never evicted and songs leave in the order they were accepted |
| Players.SongsLeaveInTurn | discord-bot/music/player.go:101-105 | a driver takes the oldest accepted song that has not left, so does a drain, and songs leave in no other way |
| Players.SongInHandIsKept | discord-bot/music/player.go:129-142 | the song a driver took is the one it opens a pipe for |
| Players.QueuesUnlessRefused | discord-bot/music/player.go:61-77 | a Queue call adds its song if and only if neither check found the queue full and its search found a song |
| Players.AcceptedIsWhatWasFound | discord-bot/music/player.go:67-77 | the songs accepted are exactly what the calls that added them had found, in that order |
| Players.NoSongIsStranded | discord-bot/music/player.go:72-86 | when all has settled the queue is empty and the player stopped, or layer 0 is not cancelled and a driver watches it |
| Players.IdleExactly | discord-bot/music/player.go:61-159 | all has settled if and only if nothing can happen but a new call, a drained queue or the end of a layer |
| Players.StepWorks | discord-bot/music/player.go:61-159 | every other step lowers the work left, and those raise it by at most 13 a call and 5 a layer ended |
| Players.AllSettles | discord-bot/music/player.go:61-159 | so no run takes more steps of the player's own than 13 a call and 5 a layer ended |
| Players.WatcherIsNeverForgotten | discord-bot/music/player.go:154-158 | a watcher whose layer is gone has been woken |
| DownloadCaches.SingleFlight | discord-bot/music/ytdl.go:72-105 | at most one download per query runs, and its leader never inserts a query already cached |
| DownloadCaches.QueueMirrorsCache | discord-bot/music/ytdl.go:129-145 | the cache never outgrows the queue, and the queue lists exactly the cached queries, each once, if and only if no slot is lost |
| DownloadCaches.StepLosesExactly | discord-bot/music/ytdl.go:132-144 | an insertion that cannot remove the file of a cached download loses exactly one slot, every other step none, and none is won back |
| DownloadCaches.SlotsLostExactly | discord-bot/music/ytdl.go:132-144 | after any run the slots lost number those failures, so queue and cache agree if and only if there was none |
| DownloadCaches.OneFailureCanEndTheCache | discord-bot/music/ytdl.go:137-140 | a run after which a cache of one download never holds anything again |
| DownloadCaches.StepStrandsExactly | discord-bot/music/ytdl.go:132-144 | a step takes the file from under a cached download, or one about to be cached, if and only if it removes the file of an evicted download that another has too |
| DownloadCaches.FilesAreThereExactly | discord-bot/music/ytdl.go:132-144 | all through a run every cached download has its file if and only if no step does that |
| DownloadCaches.OwnFilesNeverStrand | discord-bot/music/ytdl.go:50 | no step does when different queries find different files |
| DownloadCaches.SharedFilesCanVanish | discord-bot/music/ytdl.go:50 | two queries with one file, the second cached as its file is removed |
| SearchResults.SearchReturnsWhatWasFetched | discord-bot/music/ytdl.go:57-116 | what any search returns was downloaded for its own query |
| SearchResults.SearchReturnsExactly | discord-bot/music/ytdl.go:57-146 | over any run a search that led returns nothing if and only if its download failed or a cached one had to go and no file was removed, else what its own download made; any other returns what was cached under its query at its last look |
| SearchResults.HitsReturnAtOnce | discord-bot/music/ytdl.go:67-80 | a search that finds its query cached returns it at once |
| SearchResults.QueriesAreKept | discord-bot/music/ytdl.go:57-65 | every search looks and downloads under the query it was made with |
| DownloadCaches.CacheServesWhatWasFetched | discord-bot/music/ytdl.go:107-116 | what is cached under a query was downloaded for that query |
| DownloadCaches.WaitersAreReleased | discord-bot/music/ytdl.go:82-102 | some enabled step always wakes a waiter or brings it nearer to waking |
| LayerFraming.MixedIsAPrefix | shared/audio/mixing.go:171-198 | in every interleaving and with any unregistering, what is mixed is a prefix of the stream's frames |
| LayerFraming.OnlyEvictedWhenDrained | shared/audio/mixing.go:142-165 | a layer never unregistered is evicted only after every frame was mixed |
| LayerFraming.LayerDrains | shared/audio/mixing.go:142-198 | until then some step is always enabled and every step but unregistering brings it nearer, for any channel size |
| LayerFraming.LayerEnds | shared/audio/mixing.go:142-198 | a layer nobody unregisters ends in boundedly many steps, whatever their order, with every frame mixed |
| LayerFraming.FramesAreTheStream | shared/audio/mixing.go:174-185 | every frame is full and end to end they are the bytes then less than a frame of zeros |
| ToolIds.RenamesNeverCollide | llm/model/brain.go:253-257 | two renamed calls never share an id |
| ToolIds.StoredIdsDistinctExactly | llm/model/brain.go:253-264 | the stored ids are distinct if and only if no provider id is the new name of a later repeat |
| ToolIds.DistinctWithoutNumberedIds | llm/model/brain.go:253-264 | they are whenever no provider id is another followed by an underscore and a number |
| ToolIds.NumberedIdsCanCollide | llm/model/brain.go:253-264 | a list of provider ids whose stored ids collide |
| Transcripts.Messages | llm/model/brain.go:359-404 | first the prompt and one instruction a note, with its text, then for every memory in order one message with its text: the bot's own as it is, anybody else's after their name; accepted by the API |
| Transcripts.MemoryIsToldInOrder | llm/model/brain.go:382-400 | a memory is its calls with their results, in order, and then its text |
| Transcripts.OneMoreMemory | llm/model/brain.go:382-401 | a longer history only adds messages at the end |
| Transcripts.TextIsKept | llm/model/brain.go:370-400 | memories that differ in their text never make the same message |
| Transcripts.ToolCallMessage | llm/model/brain.go:292-308 | the assistant message that made the calls |
| Transcripts.HistoryWellFormed | _docs/openai/05-tool-calling.md:87-93 | any history at all expands to messages that obey the pairing rules, so eviction orphans nothing |
| Transcripts.JoinWellFormed | _docs/openai/05-tool-calling.md:87-93 | the pairing rules survive appending |
| Chats.ShortTermMemory.Store | llm/memory/shortterm.go:28-31 | appends, evicting the oldest memory whole |
| Chats.ShortTermMemory.Ordered | llm/memory/shortterm.go:33-37 | the held memories, oldest first |
| Chats.CallTools | llm/model/brain.go:246-265 | one assistant message and one tool message per call, and the calls under their stored ids |
| Chats.Converse | llm/model/brain.go:203-266 | which requests the loop makes, of which model, with which messages, with or without tools, and what comes out |
| Chats.FirstRequest | llm/model/brain.go:187-209 | the first request goes to the selected model with the messages the chat began with |
| Chats.DeclinesCarryOn | llm/model/brain.go:227-241 | after a decline the next one has the same messages and goes to the model selected once the last was benched |
| Chats.RoundsCarryOn | llm/model/brain.go:244-251 | after a round of tools it goes to the same model, with the message that made the calls and every result under its call's id |
| Chats.UnofferedExactly | llm/model/brain.go:205-209 | a round counts as not offered if and only if its request offered no tools |
| Chats.RepliesAreRemembered | llm/model/brain.go:280-286 | the reply returned is remembered last, with its calls, if and only if there were words or calls, and else nothing changes |
| Chats.CallsAreKept | llm/model/brain.go:253-264 | calls are kept as executed, each under the stored form of its provider's id |
| Chats.TrimSpaceTrims | llm/model/brain.go:225 | trimming takes white space off both ends and nothing else |
| Chats.Chat | llm/model/brain.go:173-289 | every request is accepted by the API; the stored reply lists exactly the executed calls; an empty reply without calls leaves no trace |
| Chats.LiveWellFormed | llm/model/brain.go:246-252 | every message list sent in the loop obeys the pairing rules |
| Chats.RequestsCount | llm/model/brain.go:203-243 | a chat goes on once per model that declines and once per round of tools, and the rounds beyond those offered are exactly the ones called with no tools on offer |
| Chats.RequestsAreBoundedExactly | llm/model/brain.go:203-243 | for every u, a bound holds for all chats with at most u rounds that were not offered if and only if it allows one request per model, the offered rounds and u |
| Chats.RequestsAreBounded | llm/model/brain.go:205-209 | if models call tools only when offered, at most one request per model plus two rounds of tools |
| Chats.DeclinesAskNewModels | llm/model/brain.go:227-241 | models asked after declines in time are pairwise different |
| Chats.MemoryTellsWhatHappened | llm/model/brain.go:384-392 | a reply read back from memory tells the calls, arguments and results executed live, in order |
| Downsamplers.Downsampler.Downsample | shared/audio/resample.go:52-71 | the output continues the whole signal's output exactly |
| Downsamplers.DownsampleAll | shared/audio/resample.go:40-71 | any split into chunks gives the whole-signal definition and ceil(n / 3) samples |
| Downsamplers.DownsampledPrefix | shared/audio/resample.go:40-71 | later signal never changes earlier output |
| Downsamplers.ImpulseGivesTheTaps | shared/audio/resample.go:60-63 | an impulse comes out of the filter as its taps, one after the other, each once |
| Downsamplers.SignalsAddUp | shared/audio/resample.go:60-63 | the filter of a sum of signals is the sum of theirs |
| Downsamplers.QuantizeIsNearest | shared/audio/resample.go:64 | rounding is to the nearest sample, halves away from zero, and past either end to that end |
| Detectors.Detector.Feed | discord-bot/wake/wake.go:183-195 | the score is that of the whole signal heard, less than a step is left pending |
| Detectors.Detector.Step | discord-bot/wake/wake.go:197-252 | one step moves the lookback, mel, embedding and score windows to those of the next step |
| Detectors.Detector.HoldsItsWindows | discord-bot/wake/wake.go:152-163 | 76 mel frames, at most 16 embeddings, less than a step pending, and score 0 before 16 steps |
| Detectors.FeedAll | discord-bot/wake/wake.go:183-195 | any split of the audio gives the same score |
| Detectors.WholeScoreIs | discord-bot/wake/wake.go:235-249 | the score is 0 before sixteen full steps, then of exactly the last sixteen embeddings |
| Detectors.EmbeddingsAre | discord-bot/wake/wake.go:225-234 | the embedding of a step is of the 76 mel frames that end with its own |
| Detectors.MelsAre | discord-bot/wake/wake.go:215-223 | the mel frames are 76 of ones, then those of every step in order |
| Detectors.MelFramesKeepTheMel | discord-bot/wake/wake.go:215-222 | no value of the mel model's output is lost or moved by the cut into frames, and the rescaling can be undone |
| Detectors.StepWindowIs | discord-bot/wake/wake.go:197-209 | a step's window is the 1760 samples that end with its own 1280 |
| Detectors.WindowsOverlap | discord-bot/wake/wake.go:197-209 | neighbouring windows overlap by exactly the lookback |
| Decoders.Decoder.Decode | discord-bot/audio/decode.go:41-66 | the averaged channels and the pause by 32-bit subtraction; a packet that fails to decode changes nothing |
| Decoders.MonoIsTheMean | discord-bot/audio/decode.go:59-63 | every mono sample is the mean of its two, rounded toward zero |
| Decoders.PauseIsOffByTheLengths | discord-bot/audio/decode.go:48-55 | for packets within half a wrap, in order or not, what is measured is the silence between them and what the first is longer than the second, when that is positive and under five seconds, else none |
| Decoders.MeasuredRightExactly | discord-bot/audio/decode.go:51 | a pause is measured right, whenever the next packet comes, if and only if that packet is as long as the last |
| Decoders.TimeIsKeptButForDrift | discord-bot/audio/decode.go:48-57 | across any number of wraps samples and silence account for the time from the first packet's start to the last one's end, and for what each pair of neighbours gains or loses |
| Decoders.GainsNothingExactly | discord-bot/audio/decode.go:50-55 | when a pair gains and loses nothing: if and only if its pause is under the cap and five seconds between equal lengths, or none and the packets do not shrink, or at the cap and measured no shorter |
| Decoders.GainIsBounded | discord-bot/audio/decode.go:50-55 | pauses up to the cap are never off by more than the packets on either side differ |
| Decoders.EqualPacketsKeepTimeExactly | discord-bot/audio/decode.go:48-57 | for packets of one length no time is gained, and all is accounted for if and only if every pause is at most the cap |
| Decoders.EqualPacketsAloneKeepTime | discord-bot/audio/decode.go:48-57 | for given packet lengths the account is the time that passed, whatever the pauses up to the cap, if and only if the lengths are all the same |
| Decoders.ShorterPacketsGainTime | discord-bot/audio/decode.go:51 | two packets back to back for which 6240 samples passed and 11520 are accounted |
| Listeners.Speaker.Receive | discord-bot/audio/listen.go:123-167 | the detector hears the downsampled signal with pauses filled; the segment holds exactly what pause and packet add; old segments go; wakes are debounced |
| Listeners.Speaker.Debounce | discord-bot/audio/listen.go:156-167 | accepted wakes of one speaker are at least the debounce apart |
| Listeners.TrimmedKeepsTheRecent | discord-bot/audio/listen.go:143-146 | trimming keeps exactly the segments at or after the cutoff |
| Listeners.HeldExactly | discord-bot/audio/listen.go:143-146 | of everything ever stored a segment is still held if and only if it is within keep of the speaker's last packet |
| Listeners.HearAll | discord-bot/audio/listen.go:123-154 | a whole run of packets leaves the speaker with the recording, and the detector with the signal, that their true times make up |
| Listeners.SignalLength | discord-bot/audio/listen.go:130-132 | the 16 kHz audio of a run numbers the ceiling of a third of the time that passed and of what pauses gain or lose |
| Listeners.EqualPacketsSignal | discord-bot/audio/listen.go:130-132 | for packets of one length the signal is as long as the time that passed if and only if no pause is over 1.28 s, and otherwise shorter |
| Listeners.KeptApartExactly | discord-bot/audio/listen.go:130-132 | the signal keeps two packets apart by what is measured between them up to 1.28 s, by nothing from five seconds on, and by the pause itself if and only if a condition on it and the two lengths holds |
| Conversations.Utterances | discord-bot/audio/listen.go:268-296 | in order of start; for every speaker a permutation of the runs of what they said in the window, and nobody else's, whatever the order of the map |
| Conversations.EverySegmentIsSaidOnce | discord-bot/audio/listen.go:275-289 | the audio of every segment in the window is in one utterance of its own speaker, at one place, and in no other |
| Conversations.SpeechIsTheRun | discord-bot/audio/listen.go:282-288 | an utterance is its run's segments end to end with the short silences between them |
| Conversations.SplitVoice | discord-bot/audio/listen.go:276-289 | each segment in the window said once and in order, short pauses kept, leading ones dropped |
| Conversations.PausesSeparateExactly | discord-bot/audio/listen.go:282-287 | in any stretch of a recording a packet begins an utterance if and only if the silence before it, and what the packet before that is longer, come to 28800 samples or more and under 240000 |
| Conversations.UtterancesOfPackets | discord-bot/audio/listen.go:137-146 | the same of what any window takes from whatever is still held of a run of packets |
| Conversations.SeparatesAtTheGapExactly | discord-bot/audio/listen.go:23-24 | pauses of 600 ms and none shorter separate, among all those under five seconds, if and only if the packets on either side are equally long |
| Conversations.UnequalPacketsMislead | discord-bot/audio/listen.go:23-24 | a silence of 490 ms that separates and one of 600 ms that does not |
| Conversations.LongPausesVanish | discord-bot/audio/decode.go:50-55 | two packets measured five seconds or more apart are one utterance with no silence in it |
| Runs.RunsBeginExactly | discord-bot/audio/listen.go:282-287 | a run begins at an element if and only if it is the first or comes after a break |
| Runs.CutCuts | discord-bot/audio/listen.go:282-287 | the runs put together are the input, cut at its breaks and nowhere else |
| Runs.OnlyOneCut | discord-bot/audio/listen.go:282-287 | there is only one such cut |
| Conversations.JoinTurns | discord-bot/events/voice.go:158-169 | each run of one person's utterances becomes one turn |
| Conversations.JoinOneMore | discord-bot/events/voice.go:161-166 | an utterance joins the last turn if and only if that is the same person's |
| Conversations.JoinAlternates | discord-bot/events/voice.go:155-169 | no two neighbours are the same person, and starts stay in order |
| Conversations.JoinKeepsTheAudio | discord-bot/events/voice.go:162-163 | every sample stays in its place, counting one gap of silence after every utterance |
| Conversations.JoinGrowsByTheGaps | discord-bot/events/voice.go:162-163 | the total length grows by exactly one gap per merge |
| Conversations.JoinIsIdempotent | discord-bot/events/voice.go:155-169 | joining twice is joining once |
| Conversations.InTwoWindowsExactly | discord-bot/events/voice.go:63-87 | an instant is in two wakes' windows if and only if it is the one the first fell quiet at and the next wake looks back that far |
| Conversations.ContextIsCovered | discord-bot/events/voice.go:84-87 | every instant of a wake's context is in its window or an earlier one's, and new to one of them |
| Conversations.NothingIsMissedExactly | discord-bot/config/config.go:211-214 | whatever the speakers say, all of every wake's context is collected for it or an earlier wake if and only if each is collected within keep of the first instant new to its window |
| Conversations.PromptAnswersMissNothing | discord-bot/config/config.go:211-214 | with the configured window, wakes collected within the longest command and its quiet miss nothing |
| Conversations.QueuedWakesMissContext | discord-bot/events/voice.go:65-67 | under the default settings a wake queued behind a slow answer misses context |

## Left out

- Discord client code, slash commands, routing, generated gRPC code, configuration, start-up: plumbing over libraries.
- HTTP providers, ffmpeg, yt-dlp, libopus and onnxruntime: their outcomes are inputs here.
- Floating point: dBFS levels, gain and the float mixing of frames; filter sums and mel rescaling are exact reals, so rounding in float64 and float32 is not modelled.
- Wake word stripping, `formatQuery`, `truncate`, WAV headers: single-branch text and bytes, or regular expressions.
- Tool registration and the tool set's lookup: an unknown tool is one more result.
- Concurrent failovers: another caller may move the selection mid-run, so distinct tries are claimed for one caller; `Failovers.EveryRunIsSound` holds for any number.
- ToolCalls.Apply: values rather than objects, since a sequential method cannot show an interleaving; the locks and channels are fields of the state. The same goes for the steps of Players, DownloadCaches, LayerFraming and ToolBridge.
- ToolBridge.Go: packets in flight are unordered, which allows more than a stream does; a stream's error is that its packets are never taken up.
- Players.Apply: Stop, Skip, CloseLayers and the mixer's eviction are steps that may happen at any time, which allows more than their callers do; Playing and ListQueue only read.
- DownloadCaches.Apply: files written or removed by anything but these searches.
- LayerFraming.Apply: the snapshot the mixer polls is not a part of the state, so frames may be taken of a layer unregistered long before, which allows more than the mixer does; a layer id reused between the mixer's snapshot and its eviction, and a read error other than the end of the stream.
- Chats.Chat: the maps from channel to history and from guild to prompt are read before the model starts; other goroutines storing into the same history meanwhile interleave at the level of `Store`.
- Sorting.Sort: the library's sort is not stable; only that the result is sorted and a permutation is promised and used.
- Detectors.Detector.Feed: inference that fails part way is assumed not to happen.
- Listeners.Speaker.Receive: the map from user to speaker, loudness tracking and near-miss logging; the phases of one packet are methods of their own.
- Conversations.NothingIsMissedExactly: a wake answered after the bot has left the channel moves the window on without transcribing it, and a speaker who leaves is forgotten with all that was held; a packet that arrives at the very instant of collection counts as stored.
- Overflow of the 64-bit call counter, and durations beyond 292 years.
