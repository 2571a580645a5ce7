# Verified model of anonx-cpp

anonx-cpp is a voice-chat music bot. This project models the parts of it that keep state
across threads and proves what they guarantee, for every interleaving, every run and every
input. Where the code does not give what its documentation promises, the exact condition
under which it does is proved instead.

Check everything with `dafny verify dfyconfig.toml`.

## What is modelled

**The bounded worker pool** (`PoolModel`, `PoolSafety`, `PoolProgress`, `PoolShutdown`,
`PoolWitnesses`, `ThreadPools`). Any number of producers, workers and one winning `shutdown`
caller as a machine of atomic steps with explicit program counters. `PoolModel.Next` is the
step, `PoolModel.Exec` a schedule. `PoolSafety` proves the counters, the backpressure bound,
work conservation, FIFO order and the drain on shutdown for every schedule. `PoolProgress`
bounds what a pool in service still does and shows that it ends with everything run, and
that after `stop_` is set at most one more task per producer gets in. `PoolShutdown` settles
when `shutdown` returns: `stop_` is set and `notify_all` is sent without the mutex, so a
worker between its failed predicate and its wait can miss both. It catches at most one
worker, and only an enqueue that has still to push, or to notify, can wake it.
`ShutdownCanHangIff` gives the exact condition, on the state in which `notify_all` is sent,
with any enqueues under way. `ThreadPools.ThreadPool` is the object updated in place; each
of its step methods is one atomic step of the code, is proved to be the machine's step, and
keeps the machine's invariant, from which the results on reachable states are derived.

**The per-chat player** (`PlayerModel`, `PlayerSafety`, `PlayerHistory`, `PlayerLiveness`,
`PlayerPlayback`, and the classes in `Player.dfy`). The session map, the pipeline, the
queue, the call membership and the auto-advances that ended streams have scheduled, under
all commands and asynchronous events. The classes hold the stores as the code does; every
dispatcher handler is proved to move one chat by the machine's step and no other chat at
all. `PlayerHistory.SessionIsItsHistory` ties the machine to the bare record of a run:
whether there is a session, and its track, state, volume and pipeline flags, are what the
commands and the streams have last said of each.

The user documentation says that `/skip` goes to the next song. The code does not: stopping
the old pipeline also fires its end-of-stream callback, which schedules an auto-advance,
which stops the next track, and so on until the queue is empty and the chat has left the
call. `PlayerLiveness.SkipPlaysNothing` is a run that shows it, two requests and a `/skip`.
`PlayerLiveness.SettledOutcome` says where a chat is once the scheduled advances have run,
on every schedule and whatever streams end meanwhile; `SkipUsesUpTheQueue`,
`StreamEndAdvancesOneTrack`, `DirectPlaySurvivesIff` and `StopThenPlay` apply it to single
commands. `PlayerPlayback.CanCutIff` says exactly when a chat left to itself can lose a
track, and `PlayerPlayback.PeacefulIff` exactly which runs keep every request, in order and
uncut, at every point: those with no `/skip` or `/stop` that finds something to play, and no
`/play` that starts a track at once while an advance is scheduled.

**The rate limiter** (`BucketModel`, `RateLimiting`). The lazily refilled bucket decides
exactly as a limiter that keeps all grants and checks every window; from that follow the
window bound, the invisibility of refused calls, the independence of entities, and that
admitting greedily is optimal as long as an entity's requests do not get smaller, in
particular for requests of one size. For the falling sizes 2, 1, 1 it is not.

**Smaller cores.** The PCM reader loop (`PipelineReading`, `Pcm`), the gain (`Gain`), the
stream-URL cache (`CacheModel`, `UrlCaching`), the command parser (`CommandParser`) and the
table of pending callbacks (`CallbackTable`, `TdlibClients`).

## Assumptions

- Atomics are sequentially consistent. The code uses relaxed ordering; a stale load of
  `pending_tasks_` could exceed the capacity bound proved here.
- `pending_tasks_` is a 64-bit unsigned word and wraps; the capacity plus the number of
  producers fits it. `completed_tasks_` is unbounded.
- Every callable handed to the pool returns or throws: a worker that runs a task can always
  take its next step. What is proved about the return of `shutdown` and about drained queues
  needs this; a callable that never returns keeps `shutdown` waiting as well.
- A worker that calls `enqueue` from inside a task is a producer of its own in the model.
- Joining the workers is one step, possible once all have exited.
- Handlers of one chat do not overlap; a stream that runs out and an auto-advance that gets
  its turn are steps of their own and come in between.
- Every pipeline gets past its process creation, and scheduling an auto-advance does not throw.
  `FFmpegPipeline::start` always returns true, so the branch of `play_next_in_queue` for a
  failed start is never taken.
- `join_group_call` succeeds whenever `/play` calls it. Its failure is modelled at the call
  itself (`NTgCallsClient.JoinGroupCall`); `handle_play` ignores the result and would start
  the track outside the call.
- What the stream extractor writes, and whether it could be run, are parameters of the resolver.
- A read from the pipe yields at least one byte until the end of the stream and none after
  it; a read error in the middle is not modelled.
- Tokens and times of the rate limiter are real numbers, and the steady clock does not run
  backwards.

## Model

| member | source | states |
|---|---|---|
| PoolSafety.CountersConserved | include/anonx/core/thread_pool.hpp:49-62 | in every reachable state pending counts exactly the tasks counted but not pushed, queued, or popped and not decremented; completed plus pending is what was counted plus the workers between the two updates; neither update ever wraps |
| PoolSafety.BackpressureBound | include/anonx/core/thread_pool.hpp:36-49 | with P producers pending never exceeds the capacity plus P - 1, hence never the capacity with one producer, although check and increment are apart; with capacity 0 nothing is ever admitted |
| PoolWitnesses.BoundIsAttained | include/anonx/core/thread_pool.hpp:36-49 | for every number of producers and every positive capacity some schedule reaches that bound |
| PoolSafety.NoWorkerSleepsOverWork | src/core/thread_pool.cpp:13-24 | while any worker sleeps, the queued tasks do not outnumber the workers heading for the queue plus the notifications still due |
| PoolSafety.NoLostWakeUp | include/anonx/core/thread_pool.hpp:51-63 | a queued task and a sleeping worker imply a worker on its way or a producer between push and notify_one |
| PoolSafety.PoppedInPushOrder | src/core/thread_pool.cpp:22-24 | the queue is what was pushed and not popped, a worker holds the task pushed with its ticket, and no ticket is run twice or run while held |
| PoolSafety.DrainedOnShutdown | src/core/thread_pool.cpp:36-50 | when the winning shutdown returns, a task has run to its end exactly once if it was pushed before the last worker exited, which covers all pushed before stop_ was set, and not at all otherwise; the queue holds the latter, in order |
| PoolWitnesses.AcceptedTaskCanBeStranded | include/anonx/core/thread_pool.hpp:32-64 | an enqueue that overlaps shutdown can return normally and its task never run |
| PoolProgress.ServiceIsBounded | src/core/thread_pool.cpp:10-32 | a pool in service takes, without new calls, at most as many steps as a measure of its queue and program counters |
| PoolProgress.ServiceDrainsQueue | src/core/thread_pool.cpp:10-32 | where no thread of a pool in service can move, and it has a worker, every accepted task has run exactly once, the queue is empty, nothing is pending, and as many are completed as were ever counted |
| PoolProgress.FewTasksAfterStop | include/anonx/core/thread_pool.hpp:32-63 | after stop_ is set at most one more task per producer gets into the queue, on every schedule |
| PoolProgress.FewTasksStranded | src/core/thread_pool.cpp:36-50 | a shutdown of a pool with workers leaves at most one task per producer in the queue when it returns |
| PoolShutdown.OnlyTheMissedWorkerStalls | src/core/thread_pool.cpp:36-50 | a shutdown that cannot proceed waits for exactly one worker, the one that was about to block when notify_all was sent; every other thread is done |
| PoolShutdown.ShutdownIsBounded | src/core/thread_pool.cpp:36-50 | after notify_all a schedule of real steps is no longer than a measure of the queue and the program counters |
| PoolShutdown.ShutdownCompletes | src/core/thread_pool.cpp:36-50 | if no worker was caught, or each one caught can still be woken by an enqueue under way, real steps alone lead to the return of shutdown |
| PoolShutdown.NoHangIfRescued | src/core/thread_pool.cpp:36-50 | in the same states no schedule of any threads makes the return impossible |
| PoolShutdown.NoHangWithoutMissedWorker | src/core/thread_pool.cpp:36-50 | in particular not if no worker is about to block when notify_all is sent |
| PoolShutdown.ShutdownCanHangIff | src/core/thread_pool.cpp:36-50 | whatever enqueues are under way, some schedule hangs shutdown for ever if and only if, when notify_all is sent, a worker is between its failed predicate and its wait, and every enqueue is over, about to be refused for lack of capacity, or has pushed already |
| PoolShutdown.ShutdownHangIsReachable | src/core/thread_pool.cpp:10-20 | a fresh pool of one worker can get into that state |
| ThreadPools.ThreadPool.constructor | src/core/thread_pool.cpp:5-33 | a new pool is the machine's initial state and satisfies its invariant |
| ThreadPools.ThreadPool.LoadStop | include/anonx/core/thread_pool.hpp:32-34 | the stop check is the machine's step and throws exactly when stop_ is set |
| ThreadPools.ThreadPool.LoadPending | include/anonx/core/thread_pool.hpp:37-39 | the capacity check is the machine's step and throws exactly when the pool is saturated |
| ThreadPools.ThreadPool.FetchAddPending | include/anonx/core/thread_pool.hpp:49 | the increment is the machine's step |
| ThreadPools.ThreadPool.Emplace | include/anonx/core/thread_pool.hpp:51-62 | the push is the machine's step |
| ThreadPools.ThreadPool.CvNotifyOne | include/anonx/core/thread_pool.hpp:63 | the notification is the machine's step |
| ThreadPools.ThreadPool.Enqueue | include/anonx/core/thread_pool.hpp:27-65 | an undisturbed enqueue is refused for the reasons the code gives and in that order, else appends the task, adds exactly one to the pending count without wrapping, and wakes one sleeper if there is one; a refusal changes nothing |
| ThreadPools.ThreadPool.Acquire | src/core/thread_pool.cpp:13 | taking the mutex is the machine's step |
| ThreadPools.ThreadPool.EvaluatePredicate | src/core/thread_pool.cpp:14-16 | evaluating the wait predicate is the machine's step |
| ThreadPools.ThreadPool.FallAsleep | src/core/thread_pool.cpp:14 | blocking and giving up the mutex is the machine's step |
| ThreadPools.ThreadPool.WakeSpuriously | src/core/thread_pool.cpp:14 | a wake-up without a notification is the machine's step |
| ThreadPools.ThreadPool.TakeFront | src/core/thread_pool.cpp:18-23 | leaving the loop or popping the front task is the machine's step |
| ThreadPools.ThreadPool.RunToEnd | src/core/thread_pool.cpp:26-30 | running the task is the machine's step |
| ThreadPools.ThreadPool.FetchAddCompleted | include/anonx/core/thread_pool.hpp:59 | the first counter update is the machine's step |
| ThreadPools.ThreadPool.FetchSubPending | include/anonx/core/thread_pool.hpp:60 | the second counter update is the machine's step |
| ThreadPools.ThreadPool.FinishTask | include/anonx/core/thread_pool.hpp:51-62 | a worker with a task runs it once and then moves each counter by exactly one, without wrapping |
| ThreadPools.ThreadPool.ServeOne | src/core/thread_pool.cpp:10-32 | an undisturbed turn of the worker loop runs the oldest ticket, removes it and moves each counter by one; with an empty queue the worker leaves the loop if the pool is stopped and falls asleep if it is not |
| ThreadPools.ThreadPool.CompareExchangeStop | src/core/thread_pool.cpp:37-40 | only the first shutdown call wins; the others change nothing |
| ThreadPools.ThreadPool.CvNotifyAll | src/core/thread_pool.cpp:42 | the broadcast is the machine's step |
| ThreadPools.ThreadPool.JoinWorkers | src/core/thread_pool.cpp:44-49 | joining is the machine's step, possible once all workers have exited |
| ThreadPools.ThreadPool.BeginShutdown | src/core/thread_pool.cpp:36-42 | the winner of an undisturbed call leaves no worker blocked; any other call changes nothing |
| ThreadPools.ThreadPool.FinishShutdown | src/core/thread_pool.cpp:44-49 | once all workers have exited the call returns, and if there were any, every task pushed before the last exit, hence every task pushed before stop_, has run exactly once and the later ones are queued |
| PlayerSafety.RunIsCoherent | src/telegram/dispatcher.cpp:160-232 | at every handler boundary the chats in the call are those with a session, only they have a queue, a session has a running stream or a scheduled advance, and state, pause flag and volume agree |
| PlayerSafety.NoStalledQueue | src/telegram/dispatcher.cpp:69-78 | a chat with queued tracks has a running stream or a scheduled advance |
| PlayerSafety.StartsOnlyInCall | src/telegram/dispatcher.cpp:321-338 | no track is started outside a call, although play_next_in_queue never joins |
| PlayerSafety.EachGenerationEndsOnce | src/audio/ffmpeg_pipeline.cpp:404-407 | over every run the tracks started are, in order, the tracks that ended, by themselves or cut, followed by the one that is running: each generation ends once and none ends before its predecessor |
| PlayerSafety.GenerationAccounting | src/audio/ffmpeg_pipeline.cpp:404-407 | moreover every end schedules exactly one auto-advance, run or still pending, and pops do not exceed skips plus ended generations |
| PlayerSafety.QueueIsFifo | src/database/mongo_client.cpp:31-61 | the tracks queued since the last clear are those popped since then followed by the queue, in order |
| PlayerSafety.EveryRequestIsKept | src/telegram/dispatcher.cpp:160-198 | a /play with a query starts its track at once, exactly when the chat is idle, or queues it, exactly once |
| PlayerSafety.NoTrackIsLost | src/telegram/dispatcher.cpp:160-232 | over every run the requests are, as a multiset, the tracks that have ended, those dropped by a /stop, the running one and the queued ones |
| PlayerSafety.VolumeInRange | src/audio/audio_streamer.cpp:128-138 | in every run a session's volume is in 1..200 |
| PlayerSafety.VolumeFollowsSession | src/audio/audio_streamer.cpp:26-39 | a volume stays with its session through tracks, pauses and ends until it is set, and setting it changes nothing else |
| PlayerSafety.ResumeUndoesPause | src/audio/audio_streamer.cpp:81-103 | resuming restores the state before the pause, and a paused stream is still the live one |
| PlayerHistory.RequestCarriesQuery | src/telegram/dispatcher.cpp:166-197 | the track that a /play makes current in an idle chat, or puts last in the queue otherwise, has the query as title and url, the user as requester and the time of the request; the other store is untouched |
| PlayerHistory.StartedTrackPlays | src/audio/audio_streamer.cpp:48-74 | a track that any event starts is current in state Playing on a new running pipeline that is not paused, at the volume the session had |
| PlayerHistory.EndedStreamTurnsIdle | src/audio/audio_streamer.cpp:180-198 | a stream that runs out leaves its session idle with nothing else of it changed, and schedules one advance |
| PlayerHistory.IdleUntilNextStart | src/audio/audio_streamer.cpp:180-198 | over every run, after a stream has ended a session without a running stream is idle as long as no /pause or /resume comes |
| PlayerHistory.ControlsAreAbsolute | src/audio/audio_streamer.cpp:81-103 | /pause pauses and /resume resumes a session in whatever state, its pipeline alike, and changes nothing else; without a session they change nothing |
| PlayerHistory.LastControlDecides | src/audio/audio_streamer.cpp:81-103 | any number of them in a row has the effect of the last one alone |
| PlayerHistory.SessionIsItsHistory | src/audio/audio_streamer.cpp:26-147 | after every run a session exists, and its chat is in the call, exactly if the last start came after the last /stop and the last skip or advance that found no track; its track, state, volume, pause flag and running flag are what the run last said of each |
| PlayerLiveness.AutoPlayTerminates | src/telegram/dispatcher.cpp:321-338 | without commands a chat takes at most twice its queue, twice its live stream, plus its pending advances many steps |
| PlayerLiveness.LongestAutoPlay | src/audio/audio_streamer.cpp:180-198 | unless its stream is paused, one run takes exactly that many and ends as a fresh chat |
| PlayerLiveness.QuietMeansPausedOrOver | src/audio/audio_streamer.cpp:105-126 | where nothing can happen by itself a paused stream waits in the call, or queue, session and membership are gone |
| PlayerLiveness.SettledOutcome | src/telegram/dispatcher.cpp:69-78 | on every schedule, once the scheduled advances have run: a chat with at most one stream or advance around has moved on by exactly the streams that ended; with more, queue, session and membership are gone |
| PlayerLiveness.DoomedEndsTornDown | src/audio/audio_streamer.cpp:41-64 | an advance scheduled beside a running stream or a second advance sets off a chain that uses up the queue and leaves the call, on every schedule |
| PlayerLiveness.PeacefulOutcome | src/telegram/dispatcher.cpp:321-338 | without that, every end of a stream takes exactly one track off, on every schedule |
| PlayerLiveness.SettlingSchedule | src/telegram/dispatcher.cpp:69-78 | there is always a schedule that runs all advances while no stream ends |
| PlayerLiveness.StreamEndAdvancesOneTrack | src/audio/audio_streamer.cpp:180-198 | a stream that runs out with nothing else scheduled moves on by exactly one track, and so does every stream that ends before the advances have run |
| PlayerLiveness.SkipUsesUpTheQueue | src/telegram/dispatcher.cpp:200-209 | on every schedule a skip that is not refused ends with the queue used up and the call left; a refused one changes nothing |
| PlayerLiveness.SkipPlaysNothing | src/telegram/dispatcher.cpp:200-209 | two /play, a /skip and the two advances it leads to: both tracks are cut, none is played to its end, and the chat has left the call |
| PlayerLiveness.DirectPlaySurvivesIff | src/telegram/dispatcher.cpp:173-190 | on every schedule a track started at once by /play is running after the scheduled advances if and only if there were none and it has not ended by itself; otherwise the chat has left the call |
| PlayerLiveness.StopThenPlay | src/telegram/dispatcher.cpp:227-232 | a new /play some time after /stop is torn down unless all scheduled advances, that of the /stop included, have run in between |
| PlayerLiveness.TokensConserved | src/audio/audio_streamer.cpp:41-64 | streams running plus advances scheduled grow only by a direct /play or a skip to a queued track and shrink only by an advance on an empty queue |
| PlayerPlayback.CanCutIff | src/audio/audio_streamer.cpp:41-64 | a chat left to itself can lose a running track on some schedule if and only if two or more streams and advances are around and there is anything to play |
| PlayerPlayback.UndisturbedPlaysInOrder | src/telegram/dispatcher.cpp:160-198 | without a disturbance no track is ever cut and the requests are the finished tracks, the running one and the queue, in order |
| PlayerPlayback.PeacefulIff | src/telegram/dispatcher.cpp:160-232 | a run has, at every point, all requests in order, none cut and none that a schedule could cut, if and only if no /skip or /stop found something to play and no /play started a track over a scheduled advance |
| PlayerPlayback.UndisturbedPlaysEverything | src/telegram/dispatcher.cpp:321-338 | left alone after such a run, on any schedule until nothing more can happen, a chat that is not paused has played every request to its end, in order, and is as new |
| Database.MongoClient.EnqueueTrack | src/database/mongo_client.cpp:31-35 | the track becomes the last of its chat's queue and no other queue changes |
| Database.MongoClient.GetQueue | src/database/mongo_client.cpp:37-44 | the chat's queue, empty for an unknown chat |
| Database.MongoClient.PopNextTrack | src/database/mongo_client.cpp:46-55 | the first track is taken off, or none exactly if the queue is empty |
| Database.MongoClient.ClearQueue | src/database/mongo_client.cpp:57-61 | the chat's queue, and only that, becomes empty |
| Calls.NTgCallsClient.JoinGroupCall | src/audio/ntgcalls_client.cpp:185-207 | the chat becomes a member unless the bridge fails to create the call, in which case nothing changes; tells which |
| Calls.NTgCallsClient.LeaveGroupCall | src/audio/ntgcalls_client.cpp:209-222 | the chat is no member any more; tells whether it was one |
| Calls.NTgCallsClient.SendPcmFrame | src/audio/ntgcalls_client.cpp:224-225 | a frame gets through exactly for a member |
| Streaming.AudioStreamer.OnStreamEof | src/audio/audio_streamer.cpp:180-198 | the session, if registered, turns idle and nothing else of it changes; one advance is scheduled, for this chat only |
| Streaming.AudioStreamer.StopPipeline | src/audio/ffmpeg_pipeline.cpp:178-211 | stopping a pipeline fires its end-of-stream callback exactly if it had not fired |
| Streaming.AudioStreamer.Play | src/audio/audio_streamer.cpp:26-79 | one session per chat, its old stream ended first; afterwards it plays the track on a new pipeline that runs and is not paused; the machine's step |
| Streaming.AudioStreamer.SetPaused | src/audio/audio_streamer.cpp:81-103 | pause leaves the session paused and resume leaves it playing, its pipeline alike, whatever they were; without a pipeline nothing changes; the machine's step |
| Streaming.AudioStreamer.Stop | src/audio/audio_streamer.cpp:105-126 | the session is unregistered before its stream is stopped; the machine's step |
| Streaming.AudioStreamer.SetVolume | src/audio/audio_streamer.cpp:128-138 | the volume, clamped, of the chat's session and nothing else |
| Streaming.AudioStreamer.GetState | src/audio/audio_streamer.cpp:140-147 | the session's state, idle without one |
| Streaming.AudioStreamer.StreamRunsOut | src/audio/ffmpeg_pipeline.cpp:392-407 | the end of a stream; the machine's step |
| Dispatching.CommandDispatcher.HandlePlay | src/telegram/dispatcher.cpp:160-198 | the machine's step for /play; the track with the query, the user and the time is current in an idle chat and last in the queue otherwise; other chats unchanged |
| Dispatching.CommandDispatcher.PlayNextInQueue | src/telegram/dispatcher.cpp:321-338 | the machine's step for moving on; other chats unchanged |
| Dispatching.CommandDispatcher.HandleSkip | src/telegram/dispatcher.cpp:200-209 | the machine's step for /skip; other chats unchanged |
| Dispatching.CommandDispatcher.HandlePause | src/telegram/dispatcher.cpp:211-217 | the machine's step for /pause; other chats unchanged |
| Dispatching.CommandDispatcher.HandleResume | src/telegram/dispatcher.cpp:219-225 | the machine's step for /resume; other chats unchanged |
| Dispatching.CommandDispatcher.HandleStop | src/telegram/dispatcher.cpp:227-232 | the machine's step for /stop; other chats unchanged |
| Dispatching.CommandDispatcher.HandleVolume | src/telegram/dispatcher.cpp:262-280 | the machine's step for /volume; other chats unchanged |
| Dispatching.CommandDispatcher.RunAdvance | src/telegram/dispatcher.cpp:69-78 | the machine's step for a scheduled advance; other chats unchanged |
| Dispatching.CommandDispatcher.Dispatch | src/telegram/dispatcher.cpp:137-158 | every event keeps every chat coherent |
| BucketModel.ExactHistory | src/core/rate_limiter.cpp:10-39 | allow grants a request exactly if it fits the burst and overdraws no window that starts at an earlier grant of the entity |
| BucketModel.LevelIsTightestWindow | src/core/rate_limiter.cpp:26-31 | the tokens left are the slack of the tightest window |
| BucketModel.BucketTracksLevel | src/core/rate_limiter.cpp:26-36 | the lazily refilled bucket holds that level at all times, refused calls included |
| BucketModel.WindowBound | src/core/rate_limiter.cpp:26-36 | in every window of every run an entity is granted at most the burst plus rate times length |
| BucketModel.RejectedCallIsInvisible | src/core/rate_limiter.cpp:14-38 | deleting a refused call from any run leaves all other verdicts unchanged |
| BucketModel.EntitiesAreIndependent | src/core/rate_limiter.cpp:14-24 | deleting all other entities' calls leaves an entity's grants unchanged |
| BucketModel.GreedyIsOptimal | src/core/rate_limiter.cpp:15-38 | as long as an entity's requests do not get smaller, no choice that respects the same bucket has granted more of them, at any prefix of any run |
| BucketModel.GreedyIsOptimalForOneSize | src/core/rate_limiter.cpp:15-38 | in particular for requests of one size |
| BucketModel.GreedyCanLoseOnFallingSizes | src/core/rate_limiter.cpp:15-38 | for the falling sizes 2, 1, 1 a choice that refuses the first request grants one more |
| RateLimiting.RateLimiter.Allow | src/core/rate_limiter.cpp:10-39 | the object in place decides as the history limiter and touches no other entity's bucket |
| PipelineReading.ReaderLoop | src/audio/ffmpeg_pipeline.cpp:365-390 | however bytes arrive and whenever it is paused, an unstopped reader delivers the canonical frames of the whole stream, 3840 bytes each but the last; a stopped one delivers the first of them and drops at most one frame's worth; it reads and delivers at most one frame for each look that found it not paused, none at all if there was none, and delivers only after a look that found it running |
| PipelineReading.FillFrame | src/audio/ffmpeg_pipeline.cpp:373-381 | the inner loop gathers consecutive bytes up to a full frame, the end, or a stop |
| Pcm.ChunksAreCanonical | src/audio/ffmpeg_pipeline.cpp:365-390 | the framing concatenates back to the stream, all frames full but the last, none empty |
| Pcm.CanonicalIsUnique | src/audio/ffmpeg_pipeline.cpp:365-390 | there is no other such framing |
| Gain.OnFrameReceived | src/audio/audio_streamer.cpp:158-178 | byte for byte: the frame sent on has the same length and every whole sample, 16-bit two's complement with the low byte first, scaled by the volume; at 100 it is the frame itself; the odd last byte of the slow path is not taken from the frame |
| Gain.ScaleIsFaithful | src/audio/audio_streamer.cpp:169-170 | no intermediate exceeds 32 bits; the result is the quotient truncated toward zero, saturating exactly outside the 16-bit range |
| Gain.GainNeverOverflows | src/audio/audio_streamer.cpp:169-170 | nor does it for the volume of any session in any run |
| Gain.ScaleIsMonotone | src/audio/audio_streamer.cpp:169-170 | louder samples stay at least as loud |
| Gain.QuietVolumesNeverSaturate | src/audio/audio_streamer.cpp:169-170 | up to 100 per cent nothing saturates or grows |
| Gain.SlowPathAgreesAtFullVolume | src/audio/audio_streamer.cpp:158-178 | at 100 per cent the slow path would send the very bytes of the fast path |
| CacheModel.AgreesWithLog | src/audio/ffmpeg_pipeline.cpp:35-55 | after any run a lookup answers the last value put since the last clear if it has not expired, and nothing otherwise |
| CacheModel.LookupsLeaveNoTrace | src/audio/ffmpeg_pipeline.cpp:35-45 | lazy erasure is never observable |
| CacheModel.PutLasts | src/audio/ffmpeg_pipeline.cpp:35-55 | a value put is answered strictly before its time to live is over and not from then on, whatever is looked up or put under other keys meanwhile |
| CacheModel.ErasureShowsIfClockStepsBack | src/audio/ffmpeg_pipeline.cpp:39-42 | it would be if the clock could step back |
| UrlCaching.StreamUrlCache.Get | src/audio/ffmpeg_pipeline.cpp:35-45 | the object in place answers as the log does |
| UrlCaching.StreamUrlCache.Put | src/audio/ffmpeg_pipeline.cpp:47-50 | the table stays what the run so far makes of it |
| UrlCaching.StreamUrlCache.Clear | src/audio/ffmpeg_pipeline.cpp:52-55 | the table stays what the run so far makes of it |
| UrlCaching.StreamUrlCache.ResolveStreamUrl | src/audio/ffmpeg_pipeline.cpp:75-153 | direct links and files are returned untouched and uncached, a cached link is returned without extraction, a failed or blank extraction falls back to the query and caches nothing, and a link found is stripped of blanks at its end and kept for 7200 seconds |
| UrlCaching.YouTubeIsExtracted | src/audio/ffmpeg_pipeline.cpp:76-81 | a web link that names YouTube anywhere is never taken as direct |
| UrlCaching.PlainTextIsDirectIff | src/audio/ffmpeg_pipeline.cpp:82-85 | text without a scheme is direct if and only if it has a dot; with a scheme other than http and https it is not |
| CommandParser.ParseInvertsPrint | src/telegram/dispatcher.cpp:21-41 | parsing a command however addressed and separated gives back the command and its arguments |
| CommandParser.PrintInvertsParse | src/telegram/dispatcher.cpp:21-41 | every message that starts with a slash is such a print of what the parser returns |
| CommandParser.CommandIff | src/telegram/dispatcher.cpp:21-41 | there is a command if and only if a slash is followed by something other than a space or an at sign; without the slash both parts are empty |
| CallbackTable.EachCallbackFiresOnce | src/telegram/tdlib_client.cpp:140-155 | in every interleaving, whatever responses come and however early or often: under an id exactly its registered callback has been called, exactly once, if a response has come since, and nothing otherwise; a sent request has exactly its own callback registered |
| TdlibClients.TDLibClient.SendRequest | src/telegram/tdlib_client.cpp:140-155 | every request gets an id never sent before, and its callback is in the table under that id when it is sent |
| TdlibClients.TDLibClient.DispatchResponse | src/telegram/tdlib_client.cpp:219-234 | the first response to a request yields the callback it was sent with; a repeated one, or one with an unknown id, yields nothing and calls nothing |

## Left out

- Process creation, pipes, command lines of the media tools, the Windows branch of the reader.
- The media bridge and the TDLib library behind their membership set and callback table, JSON contents, authorisation states.
- The bridge's own volume map, which joining a call resets to 100 whatever the session's volume is.
- Blacklisting, `remove_track_at`, message texts, `/ping`, `/help`, `/queue`, configuration, logging: one-branch facts or output.
- Two handlers of one chat at the same time, static destructors, process teardown, pipelines that end before their process exists.
- `ChatSession` and its `FFmpegPipeline` are values in the session map; that handlers share them through pointers outside the map's lock is not captured.
- Rounding of the rate limiter's floating-point arithmetic.
- The conversion of the `/volume` argument by the standard library: its result is a parameter.
- What the slow path of the gain sends as the last byte of an odd-length frame: it is read from behind the sample buffer, and is a parameter.
