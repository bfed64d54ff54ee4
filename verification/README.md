# Verified model of flac-fun

flac-fun streams FLAC files from a content server to a player daemon.  The server reads a song in segments of 450
bytes and sends them as UDP datagrams; the daemon gathers ten datagrams into a series, merges them and feeds them to
a ring buffer; libFLAC takes the chunks out in a read callback and hands decoded frames to a write callback, which
puts them into a second ring buffer; an audio thread takes them out and plays them.  Clients browse the library over
TCP before they ask the daemon to play.

The project models this path and proves what the code relies on without saying so.

| file | models |
|---|---|
| `Bytes.dfy` | `bytes.c`: integers in byte buffers, byte toggles |
| `Messages.dfy` | `messages.c`: wire formats as functions, the reading and writing loops against them; the header reception loop of the daemon |
| `CircleBuffer.dfy` | `circle-buffer.c`: the ring as a value and as the structure updated in place |
| `Playback.dfy` | `playback.c` as a machine of atomic steps: any number of feeder, decoder and audio threads, two rings with their semaphores, the pause gate, the control thread |
| `Traces.dfy` | the calls of `playback.c` step by step: what each does to semaphores, rings and flags, in which order, and where it waits |
| `Tokens.dfy` | the counting invariant of both rings, and what it excludes |
| `LostFrames.dfy` | when exactly the unchecked ring write is safe |
| `PauseGate.dfy`, `PauseLaw.dfy`, `EarlyResume.dfy` | the pause semaphore over whole runs: exactly when a pause holds and when the player is muted |
| `StopBound.dfy`, `StopJoins.dfy` | what threads still do after stop, and exactly when the joins of stop return |
| `Draining.dfy`, `DrainingRuns.dfy` | deadlock freedom, a ranking measure, and what a finished run has played |
| `Pcm.dfy`, `Decoding.dfy` | the sample conversion of the write callback, the slot size of the metadata callback, and that the frames of a stream fit it |
| `Library.dfy`, `Browse.dfy` | `library.c`, and the way from a browsed song to the opened file |
| `Feeding.dfy` | the segment loop of the server and the merge loop of the daemon |
| `Streaming.dfy` | server, channel, daemon and playback composed into one machine for one song |
| `StreamingProofs.dfy` | its invariant: series protocol, sizes, and the place of every byte of the song |
| `StreamingProgress.dfy` | that a series never stalls, and which piece of the file each feed call gets |
| `StreamingLoops.dfy` | the loops of that machine are those of the methods in `Feeding.dfy` |
| `Commands.dfy` | what that machine does with a pause, a resume, a datagram of another song and a request |
| `SongRuns.dfy`, `SongEnds.dfy` | whole songs: every run ends in the assert at the end of the file, and how much has been played by then |

Code that computes in place (`bytes.c`, `messages.c`, `circle-buffer.c`, `library.c`, the loops of `server.c`,
`player_daemon.c` and the write callback) is modelled by methods and classes over arrays, each proved against a
function of its inputs.  Code that consists of threads meeting at semaphores (`playback.c`, the series protocol) is
modelled by step machines: one step is one semaphore operation, ring operation, copy or flag access of one thread,
steps interleave freely, and every theorem speaks about all finite runs.

## What the environment is taken to do

* libFLAC is a decoder program: any finite sequence of read, write and metadata callbacks.  A write callback comes
  only after a metadata callback and its frame is not empty and fits the slot (`Decoding.StreamFitsExactly` says when
  it does for fixed-block-size streams, section 8.2 of RFC 9639).  A metadata callback is possible once.  The buffer libFLAC
  passes to the read callback holds a whole chunk of 4500 bytes: the callback copies without looking at its capacity
  (src/playback.c:245-246).
* The datagram channel of a streamed song neither loses nor duplicates nor reorders, and no wait times out.
  Data messages of other songs, of any content and up to 508 bytes, may appear in it at any time; their length field
  is that of their payload, since the daemon copies a payload before it looks at the song id
  (src/player_daemon.c:249-252).
* The song is newly opened by the server when it is played; STOP is not given while it streams.
* A client receives what it asks for with one recv (src/player_client.c:279-282).
* A directory listing is a sequence of directory names with the names of their files; names contain no NUL.

## Model

| member | source | states |
|---|---|---|
| StreamingProofs.EveryByteIsAccountedFor | src/player_daemon.c:227-362 | in every state of every run the bytes read from the file are, in file order, with the decoder, in its hands, in the flac ring, in the feed call, in the series or merge buffer, or in datagrams under way; nothing is missing, doubled or mixed with another song |
| StreamingProofs.DecoderSeesPrefixOfFile | src/playback.c:238-249 | what the read callback has handed to the decoder is a prefix of the song file |
| StreamingProofs.SeriesProtocol | src/player_daemon.c:252-362 | while the request thread waits, unsent, travelling, being stored and counted messages make ten; no store is outside the series buffer; the merge semaphore is 0 or 1; the unlocked merge meets no store, increment or datagram of the song |
| StreamingProofs.SizeChain | src/server.c:162-195 | every datagram fits 508 bytes, those of the song carry at most 450, and a merged series fits the merge buffer and a slot of the flac ring |
| StreamingProofs.SeriesSizeExactly | src/player_daemon.c:333-362 | series k of a file of L bytes merges exactly min(4500, L - 4500 k) bytes, and none once the file is exhausted |
| StreamingProofs.AbortExactlyAtEndOfFile | src/player_daemon.c:356-357 | the assert that a series is not empty fails if and only if the whole file has been fed before, after ceil(L / 4500) feed calls |
| SongRuns.EveryRunEndsInAbort | src/player_daemon.c:281-367 | the steps of a song are bounded in every interleaving of server, channel, daemon and playback, with datagrams of other songs, pauses and resumes (which `Commands.CommandsAreTaken` shows to be possible at every poll); where nobody can go on and no pause is outstanding the assert has failed: the whole file has been fed, and all but at most as many chunks as the flac ring holds have reached the decoder |
| SongRuns.SongAbortsExactly | src/playback.c:112-123 | all runs of a song that come to an end do so in the assert if and only if the decoder reads all pieces of the file but at most as many as the flac ring has push tokens |
| SongRuns.FeedCallHangs | src/playback.c:112-114 | with fewer reads every such run ends in a feed call that never returns |
| SongRuns.SomeRunEnds | src/player_daemon.c:281-367 | for every file and decoder program there is a run that comes to an end |
| SongRuns.SomeRunAborts | src/player_daemon.c:356-357 | for every file there is a run that ends in the assert, so no song with reads enough ends without it |
| Commands.SomePausedRunAborts | src/player_daemon.c:168-176 | for every file, and every datagram of another song, there is a run that pauses, waits in the shut gate, receives the datagram, resumes and ends in the assert |
| SongRuns.EveryFileHasAPlayer | src/config.h:4-18 | under the shipped constants every file has a decoder program to which these theorems apply |
| SongRuns.SongCanBeCompleted | src/player_daemon.c:281-367 | from every state of a song an end can be reached |
| SongRuns.SongCanGoOn | src/playback.c:112-123 | with no pause outstanding and reads enough some thread can move until the assert has failed |
| SongEnds.SomeRunPlaysEverything | src/playback.c:112-249 | there is a run in which the decoder gets the whole file and the device every decoded frame, in order, before the assert fails |
| SongEnds.SomeRunIsCutOff | src/player_daemon.c:356-362 | for every file that is not empty there is a run in which the assert fails before the decoder has had the whole file |
| SongEnds.SongReachesDecoderExactly | src/player_daemon.c:356-362 | that a song which has come to its end has reached the decoder as a whole holds in all runs if and only if the file is empty |
| StreamingProofs.RequestArrives | src/server.c:260-275 | the thirteen bytes of a request reach a server thread as ten segments of 450 bytes of that song, the count through the low byte of header.seq |
| StreamingProofs.StepKeepsInv | src/player_daemon.c:281-367 | every step of server, channel, daemon and playback keeps the streaming invariant |
| StreamingProofs.DefaultsAreSetUp | src/config.h:4-18 | the shipped constants satisfy the setup of the streaming theorems for exactly the decoder programs whose frames fit the raw slot |
| StreamingProgress.EveryFeedIsAPiece | src/player_daemon.c:333-362 | feed call k is handed bytes 4500 k to 4500 (k + 1) of the file, or to its end, and never nothing |
| StreamingProgress.EverySeriesCompletes | src/player_daemon.c:296-362 | the steps of server and daemon after a request are bounded in every interleaving with playback, pauses and datagrams of other songs; where they can go no further and no pause holds up the main thread, piece k has been fed if and only if the file has one, and otherwise the assert has failed |
| StreamingProgress.SeriesStepsAreBounded | src/player_daemon.c:227-362 | in any run without a return from the feed call the series has at most its rank plus five steps for each stray datagram, and feeds at most once |
| StreamingProgress.SeriesCanBeCompleted | src/player_daemon.c:296-362 | every series can be brought to its end |
| StreamingProgress.SomebodyCanMove | src/player_daemon.c:268-276 | until a series is over some thread of server or daemon has a step it can take: the counter mutex and the merge semaphore cannot deadlock |
| StreamingProgress.StepLowersRank | src/player_daemon.c:296-362 | each step of a series lowers a rank, and a series feeds once |
| StreamingLoops.SendsAreHandleFeedMe | src/server.c:162-195 | the send steps of one request put the very datagrams into the channel that the segment loop sends, and leave the file at the same position |
| StreamingLoops.MergesAreMergeSeries | src/player_daemon.c:333-345 | the merge steps leave the bytes that the merge loop leaves in the merge buffer |
| Commands.CommandsAreTaken | src/player_daemon.c:168-176 | whenever the main thread polls, a pause of a playing song clears the flag and owes one wait, a resume of a paused one sets it and owes one post, nothing else changes, and a repeated command changes nothing |
| Commands.CommandsAreFinished | src/playback.c:125-139 | the owed wait blocks the main thread, datagrams and further commands included, until the semaphore has a token and takes it; the owed post is never held up |
| Commands.StrayArrives | src/player_daemon.c:231-255 | every data message of another song that fits a datagram of 508 bytes reaches the channel, behind all others |
| Commands.RequestOnTheWire | src/player_daemon.c:281-294 | the thirteen bytes of a request one by one: type 2, size 13, ten segments, 450 bytes each, song id |
| Commands.AnyRequest | src/server.c:260-275 | for every header and request the server thread gets data size and song of the message and the low byte of header.seq as its count, and any type but 2 starts none |
| Feeding.ContentServer.constructor | src/server.c:46-50 | no song is open at the start |
| Feeding.ContentServer.HandleFeedMe | src/server.c:129-195 | one request sends the next segments of the song, from the position of the file before the call if the song was the current one and from 0 if not, and leaves the position behind them; datagram i has the header type 1, the size of its body, sequence number i; the stack buffer overflows if and only if the first segment makes a datagram of more than 508 bytes, and then nothing has been sent |
| Feeding.ContentServer.SendSegments | src/server.c:162-195 | the segment loop, from any position of the open file: the same datagrams, position and overflow |
| Feeding.ContentServer.PackDatagram | src/server.c:164-185 | what is sent is the header, with the body size alone in header.size, followed by song id, length and data |
| Feeding.DatagramHeader | src/server.c:169-171 | the header that a receiver parses from a datagram: type 1, the size of the body alone in sixteen bits, the number of the segment |
| Feeding.PackedHeaders | src/server.c:162-171 | the datagrams of a request are numbered from 0 |
| Feeding.PositionIsExact | src/server.c:162-168 | after count reads of size bytes the position is min(pos + count size, file length) |
| Feeding.SegmentsCoverTheFile | src/server.c:162-168 | the payloads of a request are the file from the old to the new position |
| Feeding.RequestsInARow | src/server.c:135-168 | what the daemon parses out of the datagrams of n requests in a row for a newly opened song concatenates to the first min(n segments size, length) bytes of its file |
| Feeding.PackedBodies | src/server.c:162-177 | parsing the body of a sent datagram gives the song id and the segment |
| Feeding.DatagramBody | src/player_daemon.c:238-250 | parsing does not depend on the bytes behind the datagram |
| Feeding.MergeSeries | src/player_daemon.c:330-345 | the merge buffer holds the stored payloads in their order and never overflows |
| Feeding.ConcatBound | src/player_daemon.c:330-331 | payloads of bounded size fill at most that many bytes each |
| Tokens.TokensAccountForEverySlot | src/playback.c:49-59 | for any capacities with fewer tokens than slots, any number of threads and any interleaving: push + pull + threads between wait and post is the initial count, and ring occupancy is pull + written but unposted + waited but undequeued |
| Tokens.NoRingOperationFails | src/playback.c:112-168 | the asserts on ring results never fail, the unchecked raw write is never refused, the audio thread never follows NULL, and both rings are first-in first-out across all threads |
| Tokens.NobodyTouchesRawBeforeMetadata | src/playback.c:257-275 | before the metadata callback has created the raw ring no thread is past its first wait on it and nothing is played |
| Tokens.AdvanceKeepsStage | src/playback.c:157-168 | each of the steps at a ring keeps the token and occupancy equations, whoever takes it |
| Tokens.AdvanceKeepsHandouts | src/playback.c:160-164 | a slot pointer held inside the mutex keeps pointing at the chunk dequeued last, whatever other threads do |
| Tokens.StepKeepsInv | src/playback.c:99-255 | every step of every thread and every command keeps the invariant, spawning further threads included |
| Traces.FreshPlayer | src/playback.c:46-61 | the player of the shipped constants: ten push tokens at both rings, no data, an open pause gate, an empty flac ring of eleven slots that takes chunks of 1 to 8192 bytes, and no raw ring |
| Traces.FeedEnters | src/playback.c:112-114 | a feed call takes push before the mutex |
| Traces.FeedLeaves | src/playback.c:116-122 | inside the mutex the chunk goes to the end of the queue; then mutex and pull are posted, in this order |
| Traces.ReadEnters | src/playback.c:228-236 | the read callback looks at the stop flag, then takes pull, then the mutex |
| Traces.ReadTakes | src/playback.c:238-240 | the front leaves the queue and the thread holds a pointer to its bytes |
| Traces.ReadLeaves | src/playback.c:242-246 | the bytes the pointer shows are delivered while the mutex is held; then mutex and push are posted, in this order |
| Traces.WriteEnters | src/playback.c:183-216 | the write callback looks at the stop flag, then takes push, then the mutex |
| Traces.WriteLeaves | src/playback.c:218-221 | the frame goes to the end of the queue; then mutex and pull are posted, in this order |
| Traces.AudioEnters | src/playback.c:153-158 | the audio loop looks at the stop flag, then takes pull, then the mutex |
| Traces.AudioTakes | src/playback.c:160-161 | the front leaves the queue and the thread holds a pointer to its bytes |
| Traces.AudioPlays | src/playback.c:163-165 | the pause semaphore is taken, the bytes the pointer shows are played, and it is given back, all while the mutex is held |
| Traces.AudioLeaves | src/playback.c:167-168 | then mutex and push are posted, in this order, and the loop starts again |
| Traces.StopIsSeen | src/playback.c:154-156 | behind a stop the audio thread leaves at the top of its loop and a callback returns at once, with nothing else changed |
| Traces.WaitsBlock | src/playback.c:112-163 | at 0 each of the semaphores lets nobody past its wait |
| Traces.FeedOnFullRing | src/playback.c:117-119 | a refused write of the feed call is a failed assert |
| Traces.WriteOnFullRing | src/playback.c:218-221 | a refused write of the write callback drops the frame and goes unnoticed |
| Traces.FeedOfBadChunk | src/playback.c:116-118 | an empty chunk fails the assert of the feed call |
| Traces.WriteOfBadFrame | src/playback.c:217-218 | an empty frame fails the assert of the write callback |
| Traces.ReadOnEmptyRing | src/playback.c:238-240 | a read callback at an empty ring is a failed assert |
| Traces.AudioOnEmptyRing | src/playback.c:160-164 | the audio thread at an empty ring follows NULL |
| Traces.MetadataMakesTheRing | src/playback.c:257-272 | the metadata callback makes the raw ring, empty and of the configured size, once, and no frame comes before it |
| Traces.CommandsAreTaken | src/playback.c:99-147 | PLAY marks the player as playing, clears the stop flag and adds its threads, without a look at those that run; pause, resume and stop change flag and owed operation only |
| LostFrames.RawStageIsSafeExactly | src/playback.c:52-52 | the ignored result of the raw write never hides a lost frame in any run if and only if the push tokens are fewer than the raw slots |
| LostFrames.LosingRun | src/playback.c:215-221 | a run that drops a frame, for every configuration with too many tokens |
| LostFrames.DefaultsAreSafe | src/config.h:9-11 | the shipped constants are on the safe side, by exactly one slot |
| PauseGate.PauseBalanceExactly | src/playback.c:125-139 | pause value + threads inside ao_play + tokens kept by a pause is 1 throughout a run if and only if no resume comes before the first play and no play during a pause |
| PauseGate.PauseTokenMoves | src/playback.c:163-165 | a thread step only moves the token between semaphore and ao_play |
| PauseGate.StockExactly | src/playback.c:54-56 | for any commands: pause value + threads inside ao_play + tokens that the next resume gives back is 2 less one for every PLAY given while the player was not marked as playing |
| PauseGate.ShutExactly | src/playback.c:125-139 | when the control thread is back, no token is left and nobody is in ao_play if and only if one such PLAY has been given and the player is paused, or two and it is marked as playing |
| PauseLaw.PauseHoldsExactly | src/playback.c:125-131 | for every history, after a pause has returned: nothing is being played and nothing is in any continuation without a resume, if and only if exactly one PLAY was given while the player was not marked as playing |
| PauseLaw.MuteExactly | src/playback.c:99-139 | for every history that leaves the player marked as playing: nothing is ever played again, whatever commands follow short of a STOP that returns, if and only if exactly two such PLAYs were given |
| PauseLaw.OpenGateLetsThrough | src/playback.c:157-165 | where a token is left a play can begin without a resume, whatever all threads are doing |
| PauseGate.PauseIsSafe | src/playback.c:125-131 | once a pause has returned behind one PLAY given while the player was not marked as playing, no ao_play is active and none begins, in any interleaving and for any other commands, until a resume |
| PauseGate.DisciplinedStartsOnce | src/playback.c:99-139 | in the intended command order one such PLAY lies before every pause |
| PauseGate.RepeatsChangeNothing | src/playback.c:125-139 | a repeated pause or resume changes nothing, and a resume undoes a pause |
| PauseGate.PlayWhilePausedMutesForever | src/playback.c:99-101 | PLAY while a pause is shut loses the token: nothing is played again whatever commands follow, short of a STOP that returns and resets the semaphore |
| PauseGate.TwoStartsMuteForever | src/playback.c:99-101 | behind two PLAYs given while the player was not marked as playing nothing is played again, whatever commands follow, short of a STOP that returns |
| EarlyResume.PauseIsNotSafeAfterEarlyResume | src/playback.c:133-139 | RESUME before the first PLAY: a run in which a play begins after a pause has returned |
| StopBound.StopBoundsWork | src/playback.c:141-168 | after stop each audio thread begins at most one more play, each decoder thread makes at most one more ring operation, and no thread is added |
| StopBound.StopDoesNotWakeAudio | src/playback.c:141-147 | for any number of threads: an audio thread waiting on an empty ring while no frame is being written is never woken by a stop |
| StopBound.StopCanStrand | src/playback.c:153-157 | that state is reached from every start by a stop given when the audio thread has entered its loop |
| StopJoins.StopReturnsExactly | src/playback.c:141-147 | for one song: in every interleaving behind a stop, which is bounded, the first join returns if and only if the audio thread is out of its loop body, past its play, or has an open pause gate and a frame in hand, in the ring or coming from the decoder; both return if and only if moreover the decoder is between callbacks, past its wait, or has a chunk or a slot that is there or coming |
| StopJoins.NoJoinWithoutGuard | src/playback.c:141-147 | without its condition a join does not return at any point of any run |
| StopJoins.GuardsAreKept | src/playback.c:150-255 | no step behind a stop changes either condition: the state in which the flag is set decides, not the scheduler |
| StopJoins.StopCanBeCompleted | src/playback.c:141-147 | there is such an end behind every stop |
| StopJoins.StopOfASong | src/playback.c:99-147 | the conditions apply at whatever point of whatever run of a song, with whatever pauses before, stop is given |
| Draining.StuckIsFinished | src/playback.c:112-249 | deadlock freedom: with no stop and no pause outstanding, a state in which no thread can move has delivered every chunk, played every frame and emptied both rings |
| Draining.StuckUnlocks | src/playback.c:157-168 | nobody can be stuck inside a ring mutex, the audio thread that takes the pause semaphore there included |
| Draining.StuckFeedsAreDone | src/playback.c:112-123 | with reads to come for all chunks but those the flac ring has tokens for, a state in which no thread can move has no feed call waiting |
| DrainingRuns.RunIsBounded | src/playback.c:112-249 | every step lowers a measure, so runs are no longer than it, and no frame or chunk appears or disappears on the way |
| DrainingRuns.EveryMaximalRunDrains | src/playback.c:112-249 | for any threads, programs and interleaving a run that can go no further has played exactly the buffers of all write callbacks and delivered exactly the chunks fed |
| DrainingRuns.CanBeCompleted | src/playback.c:112-249 | every such state has a run to that end |
| DrainingRuns.SongPlaysInOrder | src/playback.c:99-249 | for one song, however often it is paused and resumed: the threads take a bounded number of steps, and where they can take none and no pause is outstanding the decoder has got the chunks fed and the device the decoded buffers, each complete and in order |
| DrainingRuns.SongIsReached | src/playback.c:99-110 | the state these runs start from is what one PLAY and the feed calls lead to |
| CircleBuffers.CircleBuffer.constructor | src/circle-buffer.c:10-23 | a new ring stands for the empty queue |
| CircleBuffers.CircleBuffer.ReadEntry | src/circle-buffer.c:33-42 | a read fails exactly on the empty queue and changes nothing then; otherwise it takes the front, hands out the slot at the tail and moves the tail on by one |
| CircleBuffers.CircleBuffer.WriteEntry | src/circle-buffer.c:50-65 | a write fails exactly when capacity - 1 chunks are held and changes nothing then; otherwise it appends the bytes given, moves head on by one and hands out the slot behind the one written |
| CircleBuffers.CircleBuffer.ResetIndexes | src/circle-buffer.c:44-48 | a reset empties the queue and sets both indices to 0 |
| CircleBuffers.ReadRefines | src/circle-buffer.c:33-42 | the read as a function of the ring takes the front of the queue it stands for |
| CircleBuffers.WriteRefines | src/circle-buffer.c:50-65 | the write as a function of the ring appends and touches no slot but the one at head |
| CircleBuffers.RingIsBoundedQueue | src/circle-buffer.c:33-65 | any history of reads, writes and resets leaves the contents of a FIFO queue bounded by capacity - 1, and current_size is its length |
| CircleBuffers.ReadSlotIsStable | src/circle-buffer.c:38-63 | the slot returned by a read keeps its size and bytes through any number of writes and failed reads |
| CircleBuffers.GapIsStable | src/circle-buffer.c:54-56 | the one-slot gap keeps head off the slot just vacated |
| CircleBuffers.StabilityEndsAtNextRead | src/circle-buffer.c:38-63 | on a full ring the slot is overwritten as soon as another read has succeeded: the guarantee is sharp |
| Pcm.Interleave | src/playback.c:190-213 | the triple loop stores every byte of every sample at its place in a buffer of exactly the right size |
| Pcm.InterleaveRoundTrip | src/playback.c:200-213 | reading channel c at time i back as big-endian two's complement gives the sample if and only if the sample fits the width |
| Pcm.InterleavedIsUnique | src/playback.c:200-213 | the loop leaves no byte of the buffer unwritten |
| Pcm.IndexInRange | src/playback.c:203-209 | every index is inside the buffer |
| Pcm.IndexInjective | src/playback.c:203-209 | no index is written twice |
| Pcm.IndexOnto | src/playback.c:203-209 | every index is written |
| Pcm.IndexFitsInt | src/playback.c:195-204 | for 65535 samples, 8 channels and 4 bytes the index arithmetic stays within an int |
| Pcm.SampleRoundTrip | src/playback.c:208-209 | the shifted and masked bytes are the two's complement of the sample |
| Pcm.SixteenBits | src/playback.c:207-210 | a sixteen-bit sample is stored high byte first |
| Pcm.FrameFitsSlot | src/playback.c:268-272 | a frame no longer than min_blocksize fits the raw slot, also when the sample width is not a whole number of bytes |
| Pcm.SlotSizeIsExact | src/playback.c:268-272 | the slot has, for each channel alike, the number of whole bytes in min_blocksize samples, for any bit depth |
| Pcm.FrameFitsExactly | src/playback.c:191-195 | for whole bytes a frame fits the slot if and only if it is no longer than min_blocksize |
| Decoding.StreamFitsExactly | src/playback.c:191-218 | with the slot size of the metadata callback the frames of a stream of blocks no longer than min_blocksize fit their slots and pass the asserts of the write callback if and only if the stream has at least eight bits per sample or no frame at all |
| Decoding.EmptyExactly | src/playback.c:194-218 | the output buffer of a block is empty, and the assert fails, if and only if there are fewer than eight bits per sample |
| Decoding.WriteCallback | src/playback.c:179-213 | for the block of samples libFLAC hands over the callback computes a frame of the stream in which a device finds, for every channel and time, that very sample if and only if it fits the sample width |
| Decoding.HeardIsPlayed | src/playback.c:200-213 | the bytes from (time x channels + channel) x width on, read as big-endian two's complement, are the sample of that channel and time if and only if it fits |
| Decoding.StreamIsSetUp | src/config.h:9-11 | the shipped constants are a setup of the streaming theorems for every stream of at least eight bits per sample |
| Messages.HeaderSerialize | src/messages.c:18-30 | seven bytes, and nothing outside them, are written |
| Messages.HeaderDeserialize | src/messages.c:42-54 | reads the header at the front of the buffer |
| Messages.HeaderRoundTrip | src/messages.c:18-54 | reading undoes writing, whatever follows |
| Messages.HeaderOnto | src/messages.c:18-54 | writing undoes reading |
| Messages.HeaderBytes | src/messages.c:18-30 | byte 0 is the type, bytes 1 and 2 the size, bytes 3 to 6 the sequence number, most significant byte first |
| Messages.FeedMeSerialize | src/messages.c:117-127 | six bytes, and nothing outside them, are written |
| Messages.FeedMeDeserialize | src/messages.c:129-139 | reads the request at the front of the buffer |
| Messages.FeedMeRoundTrip | src/messages.c:117-139 | reading undoes writing, whatever follows |
| Messages.FeedMeBytes | src/messages.c:117-127 | bytes 0 and 1 are the data size, bytes 2 to 5 the song id |
| Messages.DataSerialize | src/messages.c:67-80 | writes 8 + n bytes, the length announced by the length function, and nothing outside them |
| Messages.DataDeserialize | src/messages.c:91-105 | reads song id and payload, and what it has consumed is their encoding |
| Messages.ItemRoundTrip | src/messages.c:67-105 | an id with a length-prefixed payload is read back and its end is found, whatever follows |
| Messages.ItemOnto | src/messages.c:67-105 | writing what was read gives the bytes consumed |
| Messages.ItemBytes | src/messages.c:67-80 | an item is four bytes of id, the length of the name, and the name |
| Messages.ItemsSerialize | src/messages.c:160-175 | the writing loop stores the items one behind the other and nothing outside their window |
| Messages.ItemsDeserialize | src/messages.c:188-203 | the reading loop finds the items of any encoding in front of it |
| Messages.ListLength | src/messages.c:208-221 | the counting loop finds the length of the encoding |
| Messages.ListSerialize | src/messages.c:153-177 | the list is written at its place and nothing else is touched |
| Messages.ListDeserialize | src/messages.c:179-206 | a list that lies in the buffer is read, and what was consumed is its encoding |
| Messages.ListRoundTrip | src/messages.c:153-303 | for lists of any length reading undoes writing and consumes exactly what was written, whatever follows |
| Messages.ListBytes | src/messages.c:153-175 | a list starts with its count in four bytes, and its first item follows |
| Messages.ListOnto | src/messages.c:153-303 | re-writing any list that parses within its bounds gives the bytes consumed |
| Messages.ListsArePrefixFree | src/messages.c:153-303 | no encoding is a prefix of the encoding of another list |
| Messages.TruncationOverruns | src/messages.c:179-206 | a truncated encoding always leads the reader past its end |
| Messages.AlbumListLength | src/messages.c:208-221 | the length function of the album list equals the bytes written |
| Messages.AlbumListSerialize | src/messages.c:153-177 | the album list is written with four-byte name lengths, within its window |
| Messages.AlbumListDeserialize | src/messages.c:179-206 | the album list is read back, and what was consumed is its encoding |
| Messages.AlbumSongsLength | src/messages.c:305-321 | the length function of the song list equals the bytes written |
| Messages.AlbumSongsSerialize | src/messages.c:240-268 | the song list is written with one-byte name lengths, within its window |
| Messages.AlbumSongsDeserialize | src/messages.c:270-303 | the song list is read back, and what was consumed is its encoding |
| Messages.ReceiveHeader | src/player_daemon.c:135-145 | after any recv results: a peer that closed before the first byte is noticed, seven bytes give the header at the front of the stream however it was cut up with nothing behind it consumed, and otherwise the loop goes on |
| Messages.HeaderIsReceived | src/player_daemon.c:135-145 | whatever header a peer sends, however it is cut up and whatever comes behind: that header is received, and seven bytes are consumed |
| Messages.HeaderIsAwaited | src/player_daemon.c:135-141 | before seven bytes have come the loop goes on; a peer that closes before the first byte is noticed; as long as data comes seven calls are enough |
| Messages.ClosingInsideSpins | src/player_daemon.c:135-141 | a peer that closes inside the header is never noticed, however many more calls of recv are made |
| Bytes.BufferWriteInt | src/bytes.c:59-75 | the big-endian base-256 digits are stored and nothing else changes |
| Bytes.BufferReadInt | src/bytes.c:23-42 | the value of the big-endian digits is loaded |
| Bytes.OverwriteFrame | src/bytes.c:59-75 | what such a write is byte by byte: the window holds the new bytes, every byte before and behind it is as it was |
| Bytes.ToggleEndianess32 | src/bytes.c:83-93 | shifts and masks of the 32-bit toggle reverse the bytes |
| Bytes.ToggleEndianess16 | src/bytes.c:95-98 | shifts of the 16-bit toggle reverse the bytes |
| Bytes.SwapInvolution | src/bytes.c:77-81 | toggling twice gives the number back, at every width |
| Bytes.SwappedImage | src/bytes.c:59-75 | the host image of the toggled number is the wire format |
| Bytes.SwappedLoad | src/bytes.c:23-42 | toggling the host value of wire bytes gives the number on the wire |
| Bytes.BigEndianRoundTrip | src/bytes.c:23-75 | reading inverts writing for every number of the width |
| Bytes.BigEndianOnto | src/bytes.c:23-75 | writing inverts reading for every byte string |
| Library.IndexIsPartition | src/library.c:34-96 | for every listing the album windows are non-empty, consecutive and cover all songs, each lists its directory's flac names in order, and directories without flac files leave no trace |
| Library.IndexIsExact | src/library.c:34-88 | the albums are, each once and in the order of the listing, the directories whose name does not begin with byte 46 and which hold a file that ends in the bytes 102, 108, 97, 99; the songs of an album are, each once and in the order of the directory, those files |
| Library.BackPointersMatchWindows | src/library.c:64-76 | the album_id of a song is the one album whose window contains it |
| Library.WindowsAscend | src/library.c:40-76 | windows do not overlap and follow the album order |
| Library.AddSongs | src/library.c:54-70 | the inner loop appends the flac names of a directory, growing the array when it is full |
| Library.ReadDirectories | src/library.c:34-88 | the nested loops over growing arrays build the index of the listing |
| Library.MusicLibrary.constructor | src/library.c:9-106 | the finished library holds exactly the index of the listing |
| Library.MusicLibrary.AlbumSongs | src/library.c:113-121 | for an album id in range: the flac names of that album's directory, in order, and the id of the first |
| Library.MusicLibrary.SongBuildPath | src/library.c:123-148 | for every song id of the library: root/album/song in a buffer of exactly its size, NUL included |
| Library.JoinPath | src/library.c:133-145 | the three copies fill the path buffer completely |
| Browse.BuildAlbumSongsAnswer | src/server.c:433-468 | the answer for an album of the library allocates exactly header and body and fills them with the items of that album |
| Browse.AnnouncedSizeExactly | src/server.c:452-457 | header.size announces the whole answer if and only if that is at most 65535 bytes |
| Browse.AnswerHeader | src/server.c:455-458 | the header of an answer: type 9, the size of the whole answer in sixteen bits, sequence number 0 |
| Browse.WireNameSize | src/server.c:447-449 | a name of up to 254 bytes is announced with its size and the NUL, one of 255 bytes with size 0 |
| Browse.AnswerDecodes | src/player_client.c:279-284 | a client that receives as many bytes as header.size announces decodes the items the server put in if the answer has at most 65535 bytes, and runs out of its buffer if it has more |
| Browse.ClientHoldsTheAlbum | src/player_client.c:279-284 | a client holds a list for an album if and only if it is the album's and the answer has at most 65535 bytes |
| Browse.BrowseThenPlay | src/server.c:443-450 | the song id picked from a browsed list makes the server open root/album/shown name if and only if the name has at most 254 bytes |
| Browse.EverySongIsShown | src/server.c:433-457 | the list of an album has one entry for each of its flac files, and a client gets it if and only if the answer has at most 65535 bytes |

## Findings

Where the code does not keep a promise on all inputs, the exact condition is proved next to it.

* The assert in `src/player_daemon.c:357` fails at the end of every song (`StreamingProofs.AbortExactlyAtEndOfFile`,
  `SongRuns.EveryRunEndsInAbort`, `SongRuns.SomeRunAborts`).  It does not wait for playback: what is still in the flac
  ring, at most its capacity, can be lost, and only the empty file is safe from that
  (`SongEnds.SongReachesDecoderExactly`).
* `raw_data_push` is initialised from the capacity constant of the flac ring (`src/playback.c:52`); the frame written
  without looking at the result is safe only while that constant stays below the raw slot count
  (`LostFrames.RawStageIsSafeExactly`).
* The pause token depends on the order of commands.  `playback_start` marks the player as playing without taking a
  token, so that each PLAY given while it is not so marked costs one.  A pause holds exactly behind one such PLAY: a
  RESUME before the first PLAY leaves the gate open, and a PLAY during a pause shuts it for good, or repairs it after
  such a RESUME; behind two the player is mute, short of a STOP that returns (`PauseLaw.PauseHoldsExactly`,
  `PauseLaw.MuteExactly`, `EarlyResume.PauseIsNotSafeAfterEarlyResume`).
* `playback_stop` can wait forever: for an audio thread that waits for data or at a closed pause gate, for a decoder
  that waits for data, or for one that waits for room after the audio thread has left.  `StopJoins.StopReturnsExactly`
  tells the states in which it returns.  The STOP handler joins the request thread before (src/player_daemon.c:207),
  so that at this point the feeder has nothing to write.
* An album whose answer has more than 65535 bytes cannot be browsed: the client trusts the truncated `header.size`
  (`Browse.ClientHoldsTheAlbum`).
* A song name of 255 bytes is announced with length 0, because its size with the NUL is kept in one byte
  (`Browse.WireNameSize`, `Browse.BrowseThenPlay`).
* Streams of fewer than eight bits per sample trip the assert of the write callback, because `bits / 8` is 0
  (`Decoding.StreamFitsExactly`).
* A request for segments of more than 493 bytes overflows the stack buffer of the server as soon as the file has that
  many bytes left (`Feeding.ContentServer.HandleFeedMe`).

## Left out

- Sockets, poll, thread creation, libFLAC, libao and the file system are parameters, as described above; a failing recv, send, fopen or malloc, freed and leaked memory, and all logging are not modelled.
- STOP followed by another PLAY, `playback_reset` and the eleven posts of the STOP handler (src/player_daemon.c:182-215).
- StopJoins.StopReturnsExactly: one song; with several PLAYs the handles of earlier threads are overwritten and never joined (src/playback.c:103-106).
- Timeouts, lost, duplicated and reordered datagrams: a timed-out wait merges what is there (src/player_daemon.c:318-354), and header.seq is not used to place a message.
- Replaying the song that is already open: the server does not rewind it (src/server.c:135-153), which `Feeding.ContentServer.HandleFeedMe` states but the streaming theorems exclude.
- StreamingProofs.EveryByteIsAccountedFor: speaks of one song after one PLAY; a second PLAY starts a second request thread on the same series buffer, which the code does not guard.
- Feeding.ContentServer.constructor: the first comparison of `opened_file` with NULL reads a field the server has not initialised (src/server.c:137-141); the model starts with no open file.
- Feeding.ContentServer.PackDatagram: requires a payload that fits the stack buffer, which the code does not check; `Feeding.ContentServer.HandleFeedMe` tells when it does not.
- Feeding.DatagramBody: covers DATA messages; the daemon only logs another message type and parses it like data (src/player_daemon.c:240-250).
- Feeding.ContentServer.HandleFeedMe: requires the id of a song of the library; ids come unchecked from the network (src/server.c:143).
- Library.MusicLibrary.AlbumSongs: requires the id of an album of the library; ids come unchecked from the network (src/server.c:433).
- Messages.DataDeserialize: requires a payload that lies in the buffer; the code trusts the length field.
- Library.ReadDirectories: grows the album array before it stores the first field of an album, while the code stores it first (src/library.c:40-48).
- Library.IndexIsPartition: a name shorter than four bytes does not match the suffix; the code looks in front of the name then (src/library.c:56).  Names keep their bytes, and `path_buffer` is not modelled.
- Browse.AnnouncedSizeExactly: only the album-songs answer; the album-list answer and some client requests put the size of a padded struct into header.size (src/server.c:390-396), and data messages count the body alone.
- Messages.ListDeserialize: requires a list that lies in the buffer; the code trusts the length fields.
- Counters, ids and ring indices are unbounded where the code uses machine integers far from their limits; the byte counts of a list are bounded by a uint32_t in the album-list methods and by an int in the album-songs methods.
- The two list formats share one definition with the width of the length field as a parameter; play-song and album-songs requests, a single four-byte integer each, are left to `Bytes.BufferWriteInt` and `Bytes.BufferReadInt`.
- Playback threads are values in a sequence and their steps functions on one state, so that all interleavings can be quantified over; the in-place form of the rings they use is `CircleBuffers.CircleBuffer`.
- cli.c, main.c, inttest.c, the playground and the tests.
