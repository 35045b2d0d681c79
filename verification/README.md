# Verified model of the real-time media endpoint

This project models the parts of the endpoint whose correctness is hard to see from one function, and proves
properties of them for all inputs, all runs and all interleavings.

- **The SCReAM sender** (`SenderProtocol.dfy`): the writer closure, the feedback reader, the send loops, Bind,
  Close and GetTargetBitrate as threads with program counters. One step is one atomic action of one thread, or a
  loop receiving from a parked sender. Both mutexes, the wait group, the close channel, the unbuffered signal
  channels and the stream table are shared state. `scream.Tx` is an arbitrary environment: its answers are free,
  and while a thread is inside a Tx call (always under `m`) it may clear any queue any number of times. Any number
  of threads, streams and calls may exist. `SenderTotals.dfy` adds quantities up over threads,
  `SenderShutdown.dfy` proves mutual exclusion and shutdown, `SenderPackets.dfy` what happens to packets and bytes,
  `SenderCalls.dfy` which calls each thread makes and in which order,
  `SenderProgress.dfy` progress and when nothing can move, `SenderWaiting.dfy` exactly which waits can still end,
  `SenderClose.dfy` exactly when Close can return, `SenderDeadlock.dfy` three reachable deadlocks.
- **The packet queue** (`RtpQueue.dfy`): a class over linked nodes with a cached byte count, refining a sequence.
- **The feedback packet walker** (`FeedbackPacket.dfy`) against an encoder for the packet of section 3.1 of
  RFC 8888. A packet is bytes; an index out of range is a result, not a precondition.
- **The naive bitrate controller** (`NaiveController.dfy`) and **the encoder updates** (`EncoderUpdates.dfy`).
- **The 32-bit clock** (`NtpClock.dfy`) and **feedback inference** (`FeedbackInferer.dfy`).
- **SSIM and PSNR** (`Ssim.dfy`, `Psnr.dfy`) in exact arithmetic, with Gaussian blur as any weighted average with
  positive weights summing to 1 over a window that contains the centre pixel.

`Rtp.dfy` holds packets and machine words. `dafny verify dfyconfig.toml` checks everything.

## Findings

- The sender can deadlock; three reachable states show it. Feedback about a stream that is read before the stream's
  loop has looked the stream up parks for ever inside `rtpStreamsMu`, which the loop needs
  (`SenderDeadlock.EarlyFeedbackDeadlocks`). A second Bind that takes `m` while the feedback reader signals and the
  loop waits for `m` closes a cycle (`SenderDeadlock.SecondBindDeadlocks`). In both no Close call ever returns.
  Feedback that is read after Close, when the loops have left, parks for ever too, and every later lookup, such as
  GetTargetBitrate's, hangs (`SenderDeadlock.FeedbackAfterCloseDeadlocks`).
- Exactly when `rtpStreamsMu` is lost for ever, whatever calls still come, is `SenderWaiting.StreamsMuFreedIff`: when
  it is held by a reader that sends on a stream, or is about to, for which either no unfinished loop is past its
  lookup, or a Bind that waits for `rtpStreamsMu` (or is about to) holds `m` and no loop of the stream can get back to
  its select without `m`. Exactly which parked senders, writers and readers, can still be received from is
  `SenderWaiting.CanBeServedIff`, and exactly when Close calls can return `SenderClose.CloseCanReturnIff`. With one
  stream, its loop past the lookup, not closed, and no Bind or Close in flight, every parked sender is served, whoever
  runs (`SenderProgress.ParkedRunGoesOn`, `SenderProgress.ParkedSenderLeaves`). `SenderProgress.NothingMovesIff` says
  when the whole sender has come to rest.
- The walker's guard lets an incomplete block header through. It panics on no packet of n bytes exactly if n is a
  multiple of four, at most 12, or 17 to 19 (`FeedbackPacket.SafeLengths`). RTCP packets are whole 32-bit words, so
  a well-framed packet is safe whatever it contains. Rounding a count of 65535 up wraps to 0
  (`FeedbackPacket.StepsOverBlockIff`); the RFC's cap of 16384 metric blocks excludes it.
- For instants less than 65536 s apart the clock difference is accurate, except that spans of the last 15
  microseconds below 65536 s may read as zero (`NtpClock.SafeSpans`).
- Inferred feedback can be delivered out of time order. Among batches in which each packet was sent once and
  that span less than a round of the 16-bit sequence number and of the 32-bit clock there are three causes: the batch straddles a wrap of the sequence number, by
  which it is sorted (`FeedbackInferer.SequenceWrapDisorders`), or a wrap of the clock
  (`FeedbackInferer.ClockWrapDisorders`), or the wall clock, from which the send times come, steps back
  (`FeedbackInferer.ClockStepDisorders`). Exactly which of these batches are delivered in order, also when causes
  meet, is `FeedbackInferer.TimeOrderIff`.
- `getPSNR` returns 0 both for equal frames and for frames that differ by 255 in every sample
  (`Psnr.PsnrZeroIff`).

## Model

| member | source | states |
|---|---|---|
| SenderProtocol.LoopGo | internal/scream/sender_interceptor.go:208-255 | every action of a send loop changes only that loop, takes and gives back each mutex as its position says, follows the loop's control flow with its branches, moves packets only by dequeue, write and report, and leaves the wait group only on its way out after close |
| SenderProtocol.ProducerGo | internal/scream/sender_interceptor.go:172-184 | the writer closure's enqueue, announcement under `m` and blocking signal, each one action that touches nothing else |
| SenderProtocol.ReaderGo | internal/scream/sender_interceptor.go:72-107 | the feedback reader calls Tx under `m` once per raw packet, skips other packets, then holds `rtpStreamsMu` from each lookup to the end of the send, which it makes exactly when the stream is in the table, and changes nothing shared but the mutexes |
| SenderProtocol.BinderGo | internal/scream/sender_interceptor.go:138-170 | Bind holds `m` throughout, gives up when closed, else adds one to the wait group, holds `rtpStreamsMu` only to store the new stream under its SSRC, registers it and starts one loop, in this order |
| SenderProtocol.CloserGo | internal/scream/sender_interceptor.go:197-206 | Close closes the channel under `m`, and only if it is open, gives `m` back before it waits, and returns only when the wait group is 0 |
| SenderProtocol.GetterGo | internal/scream/sender_interceptor.go:258-269 | GetTargetBitrate never holds both mutexes, asks Tx exactly when the stream is in the table, and changes nothing shared |
| SenderCalls.LoopDoesItsWork | internal/scream/sender_interceptor.go:214-246 | over every run a loop reads the queue length once per iteration, asks Tx once per nonempty queue, dequeues once per positive answer and never otherwise, and writes once per packet dequeued |
| SenderCalls.WritesAreAllowed | internal/scream/sender_interceptor.go:229-246 | a loop never writes or holds more packets than Tx has allowed |
| SenderCalls.WriterSignalsOnce | internal/scream/sender_interceptor.go:172-184 | over every run the writer closure puts the packet it was called with on its stream's queue and returns by the one receive of its signal |
| SenderCalls.ReaderMakesEveryRequest | internal/scream/sender_interceptor.go:82-103 | over every run the reader, for each raw packet, hands feedback to Tx under `m` and then looks up each of its SSRCs under `rtpStreamsMu`, all in order and each once |
| SenderCalls.ReaderSignalsWhatItFinds | internal/scream/sender_interceptor.go:96-101 | each stream found is signalled once |
| SenderCalls.CallsDoTheirWork | internal/scream/sender_interceptor.go:143-170 | a Bind that finds the channel open stores its stream, registers it with Tx and starts one loop, in this order, and one that finds it closed does nothing; GetTargetBitrate asks Tx exactly if its SSRC was in the table |
| SenderShutdown.ReachableSafe | internal/scream/sender_interceptor.go:138-282 | in every reachable state each mutex is owned by exactly the thread inside it, no lookup by a loop misses, the wait group matches the threads, and no loop is about to start after close |
| SenderShutdown.MutualExclusion | internal/scream/sender_interceptor.go:91-103 | no two threads are inside the same mutex |
| SenderShutdown.WaitGroupCounts | internal/scream/sender_interceptor.go:143-170 | the wait group counts the loops started and not finished, one more only while a Bind holds `m` between Add and go; the channel is closed at most once |
| SenderShutdown.NoLoopStartsAfterClose | internal/scream/sender_interceptor.go:143-170 | in any continuation after close, no loop is started |
| SenderShutdown.QuietAfterCloseReturns | internal/scream/sender_interceptor.go:197-222 | once one Close call has returned, all loops have finished and none writes or changes in any continuation |
| SenderPackets.ReachablePackets | internal/scream/sender_interceptor.go:172-255 | the account of packets, order and bytes holds in every reachable state |
| SenderPackets.EveryPacketInOnePlace | internal/scream/sender_interceptor.go:172-246 | each enqueued packet is in exactly one of queued, cleared, written by one loop, in one loop's hand; others are nowhere |
| SenderPackets.NoPacketWrittenTwice | internal/scream/sender_interceptor.go:237-246 | even two loops serving one stream never write the same packet |
| SenderPackets.WritesInOrder | internal/scream/sender_interceptor.go:237-246 | what a loop writes is a subsequence of what was enqueued, in order, without repetition |
| SenderPackets.WritesReportedOnce | internal/scream/sender_interceptor.go:244-252 | each write is reported once, in order, with that packet's size, sequence number and marker, the latest possibly still due |
| SenderPackets.BytesAddUp | internal/scream/sender_interceptor.go:177-182 | bytes announced equal bytes transmitted, cleared and queued at quiescent points, and up to the bytes in flight everywhere |
| SenderPackets.QueueFollowsHeapQueue | internal/scream/rtp_queue.go:97-132 | the protocol's queue and the heap queue make the same moves |
| SenderProgress.ActionsBounded | internal/scream/sender_interceptor.go:72-269 | in every run the number of actions is bounded by the work at the start, the work new calls bring, and the defaults taken |
| SenderProgress.NothingMovesIff | internal/scream/sender_interceptor.go:91-103 | exactly when nothing can move: every wait for a mutex ends at a feedback reader parked inside `rtpStreamsMu` |
| SenderProgress.ParkedSenderIsServed | internal/scream/sender_interceptor.go:216-255 | one stream, loop past its lookup, not closed: a parked sender bounds the run, and it can go on unless a second Bind holds `m` waiting for `rtpStreamsMu` |
| SenderProgress.ParkedRunGoesOn | internal/scream/sender_interceptor.go:91-103 | one stream, loop past its lookup, not closed, no Bind or Close in flight: a run without new calls in which a sender stays parked is bounded by the work there is and never stops |
| SenderProgress.ParkedSenderLeaves | internal/scream/sender_interceptor.go:172-184 | and so within that many steps the parked sender is received from |
| SenderProgress.CloseReturns | internal/scream/sender_interceptor.go:197-222 | after close runs are finite; where they end every Close has returned, except exactly when a loop still waits to look its stream up |
| SenderProgress.IterationsAfterClose | internal/scream/sender_interceptor.go:216-223 | after close, each iteration started uses up one of the remaining sends on newFeedback |
| SenderWaiting.StreamsMuLostForever | internal/scream/sender_interceptor.go:97-103 | held by a reader whose send no loop will receive, `rtpStreamsMu` stays with it in every continuation |
| SenderWaiting.StreamsMuFreedIff | internal/scream/sender_interceptor.go:91-103 | exactly when some continuation frees `rtpStreamsMu` |
| SenderWaiting.DoomedForever | internal/scream/sender_interceptor.go:97-103 | a sender parked for loops that cannot come stays parked in every continuation |
| SenderWaiting.CanBeServedIff | internal/scream/sender_interceptor.go:91-103 | exactly which parked senders, writers and readers, some continuation can serve, for any number of streams, loops and calls, before and after close |
| SenderWaiting.ParkedReaderDoomedIff | internal/scream/sender_interceptor.go:97-99 | for a parked reader the condition is about the loops past their lookup only |
| SenderWaiting.StuckForGood | internal/scream/sender_interceptor.go:91-103 | where nothing can move, no new call helps: every parked sender is parked for ever, and `rtpStreamsMu` is free or lost |
| SenderClose.CloseCanReturnIff | internal/scream/sender_interceptor.go:197-212 | exactly when Close can return: unless a loop that has yet to look its stream up, or is certain to be started, needs a lost `rtpStreamsMu`; where one call can return, all can |
| SenderDeadlock.EarlyFeedbackDeadlocks | internal/scream/sender_interceptor.go:208-212 | a reachable state with one stream, bound once, in which nothing can ever move and from which no Close returns |
| SenderDeadlock.SecondBindDeadlocks | internal/scream/sender_interceptor.go:143-160 | a reachable state in which a second Bind, the reader and the loop wait for each other, and from which no Close returns |
| SenderDeadlock.FeedbackAfterCloseDeadlocks | internal/scream/sender_interceptor.go:97-103 | a reachable state after a Close that has returned, in which a reader is parked for ever and `rtpStreamsMu` is lost |
| RtpQueue.List.PushBack | internal/scream/rtp_queue.go:113-116 | appends to the linked list |
| RtpQueue.List.RemoveFront | internal/scream/rtp_queue.go:127-129 | unlinks the front of the linked list and keeps the rest |
| RtpQueue.Queue.SizeOfNextRTP | internal/scream/rtp_queue.go:26-35 | the size of the oldest packet, -1 when empty |
| RtpQueue.Queue.SeqNrOfNextRTP | internal/scream/rtp_queue.go:37-46 | the sequence number of the oldest packet, 0 when empty |
| RtpQueue.Queue.SeqNrOfLastRTP | internal/scream/rtp_queue.go:48-57 | the sequence number of the newest packet, 0 when empty |
| RtpQueue.Queue.BytesInQueue | internal/scream/rtp_queue.go:59-64 | the cached count is the sum of the queued sizes |
| RtpQueue.Queue.SizeOfQueue | internal/scream/rtp_queue.go:66-71 | the number of queued packets |
| RtpQueue.Queue.GetDelay | internal/scream/rtp_queue.go:73-84 | the wait of the oldest packet, 0 when empty |
| RtpQueue.Queue.GetSizeOfLastFrame | internal/scream/rtp_queue.go:86-95 | the size of the newest packet, 0 when empty |
| RtpQueue.Queue.Clear | internal/scream/rtp_queue.go:97-106 | empties the queue and returns how many packets it held |
| RtpQueue.Queue.Enqueue | internal/scream/rtp_queue.go:108-117 | appends the packet and keeps the byte count right |
| RtpQueue.Queue.Dequeue | internal/scream/rtp_queue.go:119-132 | removes and returns the oldest packet, none when empty, and keeps the byte count right |
| RtpQueue.FirstInFirstOut | internal/scream/rtp_queue.go:97-132 | over any history, what left followed by what is left is what was enqueued, in order |
| RtpQueue.Replay | internal/scream/rtp_queue.go:22-132 | the heap queue driven by any history holds what the history leaves, with its bytes |
| RtpQueue.DelayIsLongestWait | internal/scream/rtp_queue.go:73-84 | with nondecreasing enqueue times the delay is the longest wait of any queued packet, nonnegative from the last enqueue on |
| FeedbackPacket.ExtractSsrcs | internal/scream/sender_interceptor.go:110-134 | on any bytes: panics when the walk does, else returns the distinct SSRCs of the walk |
| FeedbackPacket.EncodedFraming | internal/scream/sender_interceptor.go:114-116 | the encoded packet starts with a consistent header and ends with the report timestamp |
| FeedbackPacket.BigEndian | internal/scream/sender_interceptor.go:116-123 | fields are read most significant byte first |
| FeedbackPacket.WalksEncodedPacket | internal/scream/sender_interceptor.go:114-131 | for any report blocks of at most 16384 metric blocks the walk stays in bounds, ends at the timestamp and visits the blocks' SSRCs in order |
| FeedbackPacket.ExtractsEncodedSsrcs | internal/scream/sender_interceptor.go:110-134 | on an encoded packet the walker returns the distinct SSRCs of its report blocks |
| FeedbackPacket.StepsOverBlockIff | internal/scream/sender_interceptor.go:123-130 | the walker steps over an encoded block exactly if its count is not 65535 |
| FeedbackPacket.DistinctInFirstOccurrenceOrder | internal/scream/sender_interceptor.go:111-121 | the SSRCs returned are those visited, without duplicates, in first-occurrence order |
| FeedbackPacket.WordsNeverPanic | internal/scream/sender_interceptor.go:115-130 | a packet of whole words never panics the walker, whatever it contains |
| FeedbackPacket.SafeLengths | internal/scream/sender_interceptor.go:115-123 | exactly the lengths at which no content panics the walker |
| NaiveController.BitrateConfig.Increase | internal/utils/rate_adaption_interceptor.go:20-31 | moves up one step unless at the top |
| NaiveController.BitrateConfig.Decrease | internal/utils/rate_adaption_interceptor.go:33-43 | moves down one step unless at the bottom |
| NaiveController.BitrateConfig.Target | internal/utils/rate_adaption_interceptor.go:45-49 | the target is always one of the five bitrates, 256 kbit/s per step from 256 kbit/s on |
| NaiveController.Loop | internal/utils/rate_adaption_interceptor.go:133-185 | for any packets, queue lengths and clock readings the loop makes the adjustments of the specification and leaves its step |
| NaiveController.AtMostOneAdjustment | internal/utils/rate_adaption_interceptor.go:156-178 | at most one of the three adjustments fires per packet |
| NaiveController.StepStaysInRange | internal/utils/rate_adaption_interceptor.go:75-80 | the step always indexes the list and is its rises less its falls |
| NaiveController.StepFollowsCalls | internal/utils/rate_adaption_interceptor.go:156-178 | a packet moves the step by at most one, up or down exactly for an effective call |
| NaiveController.AdjustmentsArePaidFor | internal/utils/rate_adaption_interceptor.go:142-179 | 51 per decrease and 101 per shrink-driven increase, plus both counters, never exceed the packets seen |
| NaiveController.AdjustmentsApart | internal/utils/rate_adaption_interceptor.go:163-178 | decreases are at least 51 packets apart, shrink-driven increases at least 101 |
| NaiveController.AdjustmentsApartInTime | internal/utils/rate_adaption_interceptor.go:156-177 | decreases are more than 50 ms apart, queue-empty increases more than 500 ms, and shrink-driven ones come more than 500 ms after those |
| NaiveController.EmptyIncreasesPerWindow | internal/utils/rate_adaption_interceptor.go:156-161 | a window of length T holds at most T/500ms + 1 queue-empty increases |
| NaiveController.EmptiedIff | internal/utils/rate_adaption_interceptor.go:156-161 | exactly when a queue-empty increase is made: nothing queued, and more than 500 ms since each earlier one |
| NaiveController.DecreasedIff | internal/utils/rate_adaption_interceptor.go:163-170 | exactly when a decrease is made: a growth, or more than 200 queued, for the 51st time at least since the last decrease or queue-empty increase, and more than 50 ms since each earlier decrease |
| NaiveController.ShrunkIff | internal/utils/rate_adaption_interceptor.go:172-178 | exactly when a shrink-driven increase is made: a shrinkage below 100 for the 101st time at least since the last increase, and more than 500 ms since each queue-empty increase |
| NaiveController.DecreaseIsMade | internal/utils/rate_adaption_interceptor.go:163-170 | among any 51 packets in a row that find the queue grown or above 200 one makes a decrease, if 50 ms have passed |
| NaiveController.IncreaseIsMade | internal/utils/rate_adaption_interceptor.go:172-178 | among any 101 packets in a row that find the queue shrunk below 100, without a queue-empty increase, one makes an increase, if 500 ms have passed |
| EncoderUpdates.RunStats | rtc/sender.go:175-212 | SetBitRate gets the positive truncated targets, each dropped if it equals the one before |
| EncoderUpdates.UpdatesChange | rtc/sender.go:187-190 | no two consecutive updates are equal and the first is not 0 |
| EncoderUpdates.LastChange | rtc/sender.go:187-190 | the encoder always has the latest usable target |
| EncoderUpdates.NextUpdate | rtc/sender.go:182-190 | a sample is set, truncated, exactly if it is positive, a pipeline exists and it differs from the value set before, at first 0 |
| EncoderUpdates.UpdatesComeFromSamples | rtc/sender.go:187-190 | every update is a positive sample taken with a pipeline, truncated; none is made before there is a pipeline |
| EncoderUpdates.NaiveUpdatesAreSteps | rtc/sender.go:182-190 | fed with targets of runs of the naive controller, the encoder is only set to one of the five bitrates |
| NtpClock.AccurateIff | internal/scream/scream.go:27-34 | under 65536 s apart, the wrapped difference is within a tick exactly unless the readings are a whole turn apart |
| NtpClock.SafeSpans | internal/scream/scream.go:27-34 | exactly the spans that are accurate from every start |
| NtpClock.MonotoneBetweenWraps | rtc/feedback_inferer.go:22-29 | the clock does not go back between wraps |
| FeedbackInferer.Sort | rtc/feedback_inferer.go:80-82 | a sorted permutation of the batch, ties in any order |
| FeedbackInferer.Inferer.Notify | rtc/feedback_inferer.go:116-128 | an acknowledged packet is held by a goroutine, a lost one is ignored |
| FeedbackInferer.Inferer.SendAck | rtc/feedback_inferer.go:120-127 | a goroutine's ack moves to the channel |
| FeedbackInferer.Inferer.TakeAck | rtc/feedback_inferer.go:73-74 | the oldest ack of the channel moves to the buffer |
| FeedbackInferer.Inferer.Tick | rtc/feedback_inferer.go:76-107 | a tick delivers a sorted permutation of a nonempty batch, each packet stamped half the chosen round-trip time after its send time, rounded down to a tick of the clock, and requests feedback once, with the last packet's stamp |
| FeedbackInferer.Run | rtc/feedback_inferer.go:68-128 | over any run, acks received equal those delivered and those still held, as multisets |
| FeedbackInferer.StampsDoNotDecrease | rtc/feedback_inferer.go:80-107 | without wraps, and with send times in sequence order, what a tick delivers has nondecreasing stamps, and the one feedback is requested with is the greatest |
| FeedbackInferer.TimeOrderIff | rtc/feedback_inferer.go:80-103 | exactly which batches of less than a round of either counter a tick delivers in time order, for wraps of the sequence number and of the clock and for a wall clock that steps back |
| FeedbackInferer.SequenceWrapDisorders | rtc/feedback_inferer.go:80-82 | packets 65535 and 0, sent 1 ms apart, are delivered out of time order |
| FeedbackInferer.ClockWrapDisorders | rtc/feedback_inferer.go:22-29 | packets 1 and 2, sent 1 ms apart around a wrap of the clock, are stamped out of order |
| FeedbackInferer.ClockStepDisorders | rtc/feedback_inferer.go:22-29 | packets 1 and 2, sent before and after the wall clock is set back by 1 ms, are stamped out of order |
| Ssim.VarianceZeroIff | tools/ssim.cpp:144-147 | the blurred square less the squared mean is nonnegative, and 0 only for a plane constant on the window |
| Ssim.CovarianceBounds | tools/ssim.cpp:144-149 | twice the covariance lies within the sum of the variances, and reaches it only for planes that differ by a constant |
| Ssim.EntryBound | tools/ssim.cpp:150-158 | every entry of the map lies above -1 and at most at 1 |
| Ssim.EntryOneIff | tools/ssim.cpp:150-158 | an entry is 1 exactly if the planes agree on its window |
| Ssim.EntryOfConstants | tools/ssim.cpp:150-158 | the entry of two constant planes, with the constant 6.5025 |
| Ssim.EntryOfCentred | tools/ssim.cpp:150-158 | the entry of two planes of mean 0 from their blurred squares and product, with the constant 58.5225 |
| Ssim.EntryFactors | tools/ssim.cpp:139-158 | every entry is that of the means times that of the planes less their means |
| Ssim.EntryMovesMean | tools/ssim.cpp:159 | a change of one entry changes the MSSIM by that change divided by the number of pixels |
| Ssim.MssimBound | tools/ssim.cpp:125-161 | the mean of the map lies above -1 and at most at 1 |
| Ssim.MssimOneIffEqual | tools/ssim.cpp:125-161 | a channel's MSSIM is 1 exactly if the frames are equal in that channel |
| Ssim.MssimSymmetric | tools/ssim.cpp:125-161 | the order of the frames does not matter |
| Ssim.FramesEqualIff | tools/ssim.cpp:125-161 | frames are equal exactly if every channel's MSSIM is 1 |
| Ssim.ChannelAlone | tools/ssim.cpp:125-161 | the value for a channel is that of the channel alone |
| Psnr.EarlyReturnIffEqual | tools/ssim.cpp:106-116 | the early return is taken exactly if the first three channels are equal |
| Psnr.PsnrZeroIff | tools/ssim.cpp:106-122 | the ratio is nonnegative, and 0 exactly for equal frames or frames opposite in every sample |
| Psnr.PsnrDecreases | tools/ssim.cpp:106-122 | more squared error, smaller ratio |
| Psnr.PsnrTenth | tools/ssim.cpp:119-120 | a tenth of the squared error is worth ten decibels |
| Psnr.PsnrOfUniform | tools/ssim.cpp:106-122 | the ratio of frames that differ by d in every sample, for one to four channels |
| Psnr.ChannelErrorConcat | tools/ssim.cpp:108-113 | the squared error of a channel is the sum over its parts |
| Psnr.PsnrSymmetric | tools/ssim.cpp:106-122 | the order of the frames does not matter |

## Left out

- The sender is a state machine over values, not a class: its methods interleave, which a class with sequential
  methods cannot express. Aliasing is not captured; a packet's identity is its position among those enqueued.
- An unlock is one action with the step before it, and a queue call is one action, since the queue has its own lock.
- `UnbindLocalStream` and `UnbindRemoteStream` (they close channels that are never made, or are still in use) and
  `GetStatistics` (it calls Tx without `m`).
- Streams that do not negotiate SCReAM feedback, whose writer is returned unchanged.
- The header's SSRC is taken to be that of the bound stream, so announcements count for the stream enqueued on.
- IncomingStandardizedFeedback receives the whole buffer once per raw packet of a compound; what it does with it is
  part of the environment.
- The internals of `scream.Tx` and `scream.Rx`, RTP and RTCP marshalling, and container/list beyond the operations
  used, whose nodes are linked front to back only.
- Floating point: times are whole microseconds or nanoseconds, rates and images exact. Elapsed times stay below
  2^48 s, so that the conversion to uint64 is exact.
- `log10` is any strictly increasing function that is 0 at 1 and grows by 1 for a factor of ten.
- The controller's `lastChange` field, which nothing reads, and its Close and Unbind.
- The receiver interceptor: its shutdown repeats the sender's and its dispatch per SSRC is easy.
- GStreamer, QUIC and UDP transports, TLS, logging, tracing and the scripts.
