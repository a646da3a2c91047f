# Verified model of the tunnel server's core

A Dafny model of the parts of the server where a mistake is hardest to see: the stream multiplexer
that carries every tunnel over one link (`lib/natpunch_mux`), the UDP session protocol, the chunked
body copier, the ClientHello parser, the client registry, the SOCKS5 datagram codec and the LRU
cache. `dafny verify dfyconfig.toml` checks all of it.

Two forms are used. Code that several goroutines run at once is a step system: a state, one function
for each atomic operation (`None` when the goroutine is not at it), and `Run` over any sequence of
such operations, so a theorem about `Run` is a theorem about every interleaving. Code that one
goroutine runs to its end is a class with the source's fields or a method with the source's loops,
proved against functions, about which the properties are then lemmas.

## How the code maps to the model

- `words.dfy`, `little_endian.dfy`, `big_endian.dfy`, `io.dfy`, `segments.dfy`, `sequences.dfy`,
  `options.dfy`: machine words, byte orders, byte streams, segments, and small facts.
- `ring.dfy` is `bufDequeue` (queue.go:401-503) with any number of producers and one consumer:
  `Load`, `Claim`, `Publish` are the load, the compare-and-swap and the store of `pushHead`;
  `Poll`, `Look`, `Take`, `Advance` the load, the slot load, the slot compare-and-swap and the final
  addition of `popTail`. `dequeue.dfy` is the same ring as an object over an array and a word.
- `chain.dfy` is `bufChain` (queue.go:505-630) with one producer and one consumer: the ring
  operations above, growth (queue.go:574-586) as four steps, and dropping a drained ring
  (queue.go:605-628).
- `recv_queue.dfy` is `receiveWindowQueue` (queue.go:244-373) with one pusher and one popper: `Count`
  is the length update of `Push`, `Append` its chain push, `HandOver` and `Desist` the two arms of
  `allowPop`, `Check` the length test of `Pop`, `TakeStop` the stop arm of `waitPush`, `Grab` and
  `Subtract` the two halves of `TryPop`.
- `priority_queue.dfy` is `priorityQueue` (queue.go:14-146).
- `stream.dfy` is one direction of one stream: `WriteTo`, `Sent`, `SendFrame` are one round of the
  writer (conn.go:526-653); `TakeAck`, `LoadInSetSize`, `SwapInSetSize`, `Allow` the acknowledgement
  side (conn.go:471-524); `TakeFrame` to `ReportInWrite` the delivery side (conn.go:270-308,
  mux.go:318-370); `StartRead` to `ReportInStatus` the reader (conn.go:319-403); `CloseStream` the
  close (conn.go:81-92). `stream_invariant.dfy`, `stream_boundaries.dfy` and `stream_theorems.dfy`
  hold its invariant and its theorems, `stream_progress.dfy` the progress of a parked writer,
  `stream_stranded.dfy` the run in which one is stranded; `windows.dfy` the windows as objects over
  packed words, each call proved to do what those steps do; `window_size.dfy` the loop of `calcSize`
  (conn.go:224-263), which turns a measured size into the new window, and when it closes a stream's.
- `frames.dfy` is the frame codec (netpackager.go); `link.dfy` says which frames carry a stream.
- `multiplexer.dfy` is the whole link (mux.go:142-370): any number of streams in both directions, a
  write queue and the codec for each direction, and the session reader, which decodes one frame after
  another and hands each to its stream. Every stream inside it does a run of the stream model, which
  is why that model may treat its wire as one ordered list; `multiplexer_theorems.dfy` says what
  follows for the streams of a shared link.
- `udp_session.dfy` is `server/proxy/udp.go:128-334`; `failBuild` is one step. `udp_eviction.dfy` says
  when an entry is taken from the wrong session.
- `chunked.dfy`, `client_hello.dfy`, `registry.dfy`, `socks_udp.dfy`, `lru.dfy` are the other five.

## What was found

Each of these is a place where the code does not do what it is meant to do for all inputs, with a run
or an input that shows it and the condition under which it does.

- **Removing a UDP session can evict a newer one.** `removeSession` compares and then deletes, in two
  steps, and a failed build deletes without comparing. `UdpEviction.EvictionHappens` is a run in which
  a session that is still being built loses its entry, after which the same source address gets a
  second one; in `UdpEviction.FailedBuildEvicts` a failing build then takes the entry of that second
  one. `UdpEviction.StepEvictsIff` names every step that does this, in any state: the delete of a
  remover after whose comparison the key was deleted by somebody else and placed again
  (`UdpEviction.EvictsIffOvertaken`, on the schedule alone), and a failing build of a session after
  whose placing the key was deleted by somebody else and placed again (a session has its entry exactly
  until then, `UdpEviction.EntriesAreHistory`). Before the server closes it never happens if no two removers of one key are ever
  both between comparison and delete (`UdpEviction.SequentialNeverEvicts`), and from every reachable
  open state with two such removers three more steps lead to it (`UdpEviction.OverlapEvicts`). The
  comment at server/proxy/udp.go:267-268 expects it not to happen.
- **An empty element strands a waiting reader.** `RecvQueue.EmptyElementStrands` is a run in which the
  reader is woken by an element of length zero, finds the length still zero and parks again beside it.
  A push to a parked reader ends like that if and only if the element is empty
  (`RecvQueue.PushStrandsIffEmpty`), and with less than 2^32 bytes queued nothing but empty elements
  ever lies beside a reader parked with its wait flag (`RecvQueue.ParkedBesideEmptyOnly`). The stream
  never sends empty segments, but a peer can: any content length from 0 is accepted.
- **A window of size zero parks the writer for good.** `StreamStranded.ZeroWindowStrands` is a run to
  such a state. When everything is delivered and acknowledged, a write parks exactly if the window is
  zero, and nothing is left to wake it (`StreamTheorems.ParksIffWindowZero`); otherwise a parked writer
  has an internal step to come until it is woken or its reader rests on unread bytes
  (`StreamProgress.ParkedHasNext`, `StreamProgress.WaitEnds`). The reading side's window is zero
  exactly from the first call of `calcSize` on that closes it (`WindowSize.ZeroIffReached`), and nothing
  opens it again: a call closes an open window when the stream's measured bandwidth is less than one
  2^27th of its sum with the link's, or, unmeasured, when the size reaches 2^31, or when a size for a
  window of one byte overflows 32 bits (`WindowSize.ResizedZeroIff`). Without such a call no writer is
  stranded (`WindowSize.NeverStranded`). A peer can send the number in any acknowledgement.
- **Blanks before a chunk extension are refused.** The standard allows them; the copier trims the line
  before it cuts at the semicolon, so the number keeps the blank (`Chunked.BlankBeforeExtension`).
  It also accepts any two bytes after chunk data (`Chunked.CopyComplete` puts no condition on them).
- **Oversized frame content is sent as an empty frame without an error**
  (`Frames.ContentSurvivesIffFits`), and a link cut between two reads of a frame looks like a clean
  end (`Frames.CutFrameFails`).
- **A ClientHello parsed into a used object can keep its old curves, points and renegotiation data.**
  Each of these fields is what the message last sets it to, or else the old value
  (`ClientHello.SetsOrKeeps`), so it is independent of the object exactly when the message sets it
  (`ClientHello.AgreeIffSet`). The only caller, at server/proxy/https.go:318, parses into a new object,
  where the old values are empty.
- **A client with a negative id is stored under it** (`Registry.NegativeIdStored`), and only a negative
  id does this (`Registry.PositiveIffNotNegative`).
- **A SOCKS5 domain name of more than 255 bytes never comes back** (`SocksUdp.LongNameLost`).

## Model

| member | source | states |
|---|---|---|
| Words.WindowRoundTrip | lib/natpunch_mux/conn.go:136-155 | a window word gives back both sizes modulo 2^31 and the flag, whatever 32-bit sizes were packed |
| Words.AdvanceTailKeepsHead | lib/natpunch_mux/queue.go:497-501 | the consumer's 64-bit addition moves the tail on by one modulo 2^32, also on the last index, and leaves the head |
| Words.SubtractLengthKeepsFlag | lib/natpunch_mux/queue.go:314-322 | adding the complement subtracts the element length from the high half, borrowing modulo 2^32, and leaves the wait flag |
| Ring.RunInv | lib/natpunch_mux/queue.go:433-503 | every interleaving of any number of producers with one consumer keeps the ring invariant: the word is the two counts modulo 2^32, every claimed index has its value in its slot or a producer about to store it, every other slot is nil |
| Ring.RingSafety | lib/natpunch_mux/queue.go:433-503 | a producer only ever stores into a nil slot, two producers never hold one slot, values come out once each in claim order, and at most the ring's size are inside |
| Ring.NothingLost | lib/natpunch_mux/queue.go:447-465 | when no push is under way, the slots hold exactly the claimed values that have not come out, each in its own slot |
| Ring.RefusalsExact | lib/natpunch_mux/queue.go:442-445 | in spite of index wrap-around a push is refused only on a full ring, a pop finds nothing only on an empty one, and the tail advance leaves the head alone |
| Ring.SlotIsRemainder | lib/natpunch_mux/queue.go:448 | the slot of an index is its remainder by the ring size |
| Dequeue.BufDequeue.constructor | lib/natpunch_mux/queue.go:547-554 | a new ring is empty |
| Dequeue.BufDequeue.PushHead | lib/natpunch_mux/queue.go:433-466 | an uninterrupted push appends to the contents, or refuses exactly when they fill the ring and changes nothing |
| Dequeue.BufDequeue.PopTail | lib/natpunch_mux/queue.go:471-503 | an uninterrupted pop takes the oldest value, or nothing exactly when the ring is empty |
| Chain.RunInv | lib/natpunch_mux/queue.go:556-630 | every interleaving of one producer and one consumer keeps the chain's invariant, through growth and the dropping of rings |
| Chain.FifoConserved | lib/natpunch_mux/queue.go:556-630 | what pops returned, then what is queued, is what was pushed, in order: nothing lost, doubled or reordered |
| Chain.NilMeansEmpty | lib/natpunch_mux/queue.go:592-615 | a pop that returns nil saw the whole chain empty at an instant during its own call |
| Chain.StepRefines | lib/natpunch_mux/queue.go:556-630 | every atomic step leaves the abstract queue alone, appends the pushed value to it, or takes its first value |
| Chain.FilledIsPush | lib/natpunch_mux/queue.go:581-583 | the new ring of a growth step is a fresh ring after one complete push |
| RecvQueue.RunInv | lib/natpunch_mux/queue.go:270-342 | every interleaving of one pusher, one popper and a stop keeps the queue's invariant |
| RecvQueue.NoLostWakeUp | lib/natpunch_mux/queue.go:270-342 | while the queue is not stopped, a parked reader has the wait flag set on length zero or a pusher committed to wake it, a committed pusher has a parked reader, and a reader that did not park has an element to take or one about to come |
| RecvQueue.StopUnblocks | lib/natpunch_mux/queue.go:333-373 | after a stop neither a parked reader nor a waking pusher stays blocked: each has a token or its partner |
| RecvQueue.LengthExact | lib/natpunch_mux/queue.go:270-322 | the queue is a FIFO, and between the halves of pushes and pops the packed length is the sum of the queued element lengths modulo 2^32 |
| RecvQueue.ParkedMeansDrained | lib/natpunch_mux/queue.go:288-302 | with no empty elements and less than 2^32 bytes, length zero, on which a reader parks, means that everything pushed has been popped |
| RecvQueue.StopLosesNothing | lib/natpunch_mux/queue.go:366-373 | in every run with less than 2^32 bytes and no empty element queued and no stop during a push, a reader that parks or ends after the stop has taken everything pushed before it |
| RecvQueue.EmptyElementStrands | lib/natpunch_mux/queue.go:270-302 | a run in which an element of length zero is queued and the reader is parked beside it |
| RecvQueue.PushStrandsIffEmpty | lib/natpunch_mux/queue.go:270-302 | from any reachable state, a push that meets a parked reader leaves it parked beside the element, after the hand-off, if and only if the element is empty |
| RecvQueue.ParkedBesideEmptyOnly | lib/natpunch_mux/queue.go:288-302 | in every run with less than 2^32 bytes queued, everything that lies beside a reader parked with its wait flag set is empty |
| PriorityQueue.Queue.SetMaxLength | lib/natpunch_mux/queue.go:40-44 | sets a limit that is not negative and ignores any other |
| PriorityQueue.Queue.Push | lib/natpunch_mux/queue.go:47-76 | refuses exactly at the limit, otherwise appends the frame to the queue of its class and counts it |
| PriorityQueue.Queue.TryPop | lib/natpunch_mux/queue.go:110-146 | returns the frame that the service rule picks and leaves the queues, the counter and the length as that rule says |
| PriorityQueue.NilIffEmpty | lib/natpunch_mux/queue.go:110-146 | nothing is served exactly when all three classes are empty, whatever the starvation counter holds |
| PriorityQueue.EachClassFifo | lib/natpunch_mux/queue.go:64-146 | over any run, what was served of a class and then what waits of it is what was accepted of it |
| PriorityQueue.LengthExact | lib/natpunch_mux/queue.go:47-62 | with a positive limit the length counter is the number of queued frames, never more than the limit, and a push is refused exactly on a full queue |
| PriorityQueue.AtMostEightPassOver | lib/natpunch_mux/queue.go:78-146 | at most 8 middle frames in a row pass over a waiting low frame while no high one is there, from any counter value |
| PriorityQueue.ServeAdvances | lib/natpunch_mux/queue.go:110-146 | each serve without a high frame takes the first low frame or lowers the bound on the serves that a low frame behind `ahead` others still waits |
| PriorityQueue.LowInOrder | lib/natpunch_mux/queue.go:110-146 | over any run the low frames served, as many as there are low serves, come off the front of what waited and what arrived since |
| PriorityQueue.LowServedInTime | lib/natpunch_mux/queue.go:110-146 | within 9 + 5 * ahead serves, none of which meets a high frame, more than `ahead` low frames are served, whatever arrives, so that the low frames at places 0 to `ahead` are the next to have gone out |
| Stream.Remaining | lib/natpunch_mux/conn.go:463-469 | the remaining window is zero exactly when as much or more is used as is allowed, and otherwise makes up what is used to what is allowed |
| StreamTheorems.StepInv | lib/natpunch_mux/conn.go:270-596 | every step of the writer, the acknowledgement side, the delivery side and the reader keeps the stream invariant |
| StreamTheorems.RunInv | lib/natpunch_mux/conn.go:270-653 | every run of a stream keeps the flow, content, close and boundary invariants |
| StreamTheorems.CreditConserved | lib/natpunch_mux/conn.go:366-403 | the writer's counter equals the bytes being queued, on the wire, in delivery, queued, popped and unfinished, plus the unreported read counter, plus the counts in acknowledgements on their way |
| StreamTheorems.BadBranchesUnreachable | lib/natpunch_mux/conn.go:488-491 | the "read > send" branch and the 31-bit overflow branches of the sender and the reader are never taken, with any 31-bit windows, and the queue's length word never wraps |
| StreamTheorems.OutstandingBounded | lib/natpunch_mux/conn.go:526-596 | unacknowledged bytes never exceed the largest window ever advertised, also when the window shrinks between the check and the update |
| StreamTheorems.QuietMeansSettled | lib/natpunch_mux/conn.go:366-403 | with nothing in flight and the receiver drained, the unreported counter, the writer's counter and the queue length are zero, and a wait flag is left only on a window of size zero |
| StreamTheorems.ParksIffWindowZero | lib/natpunch_mux/conn.go:559-570 | in that situation a write with bytes left parks if and only if the writer's window is zero, and then nothing will come |
| StreamTheorems.NoStrandedWriter | lib/natpunch_mux/conn.go:485-511 | unless the receiver set its window to zero, a parked writer always still has data or an acknowledgement to come |
| StreamProgress.InternalStepWorks | lib/natpunch_mux/conn.go:270-403 | while the writer of an open stream is parked, every internal step, in any interleaving, makes a measure smaller: there can only be so many |
| StreamProgress.ParkedHasNext | lib/natpunch_mux/conn.go:485-511 | unless the receiver set its window to zero, a parked writer of an open stream has an internal step enabled, or its reader rests with bytes it has not read |
| StreamProgress.WaitEnds | lib/natpunch_mux/conn.go:485-511 | so internal steps alone lead to a state in which the writer is awake or the reader rests on unread bytes |
| StreamStranded.ZeroWindowStrands | lib/natpunch_mux/conn.go:559-570 | a run in which the receiver sets its window to zero and the writer parks with nothing on its way |
| WindowSize.ZeroIff | lib/natpunch_mux/conn.go:235-257 | whatever size comes out of the gain, the paced and limited one is kept as zero exactly from a window of zero, from one byte on a size of zero, from a share of the bandwidth below one 2^27th, or, unmeasured, from a size that reaches 2^31 |
| WindowSize.GainNeverLowers | lib/natpunch_mux/conn.go:228-234 | the gain for a window that is little used never makes a size smaller |
| WindowSize.ResizedZeroIff | lib/natpunch_mux/conn.go:201-263 | one call, with the floor, the gain and any number of failed attempts, sets zero exactly from zero, or on a small share, the 2^31 wrap, or an overflow at a window of one byte |
| WindowSize.ZeroIffReached | lib/natpunch_mux/conn.go:201-264 | in any run of a stream whose resizes are such calls on the window at that moment, the window is zero exactly if one of them closed it: zero is first reached so and never left |
| WindowSize.NeverStranded | lib/natpunch_mux/conn.go:485-511 | in such a run without such a call a parked writer of an open stream has a step to come or its reader rests on unread bytes |
| StreamTheorems.ReadsArePrefix | lib/natpunch_mux/conn.go:319-364 | in every run the bytes returned are a prefix of the bytes written, in order |
| StreamTheorems.EndOnlyAfterAll | lib/natpunch_mux/conn.go:324-348 | end of file is returned only after a close and only when every byte of every segment queued before that close has been returned |
| StreamTheorems.EndReturnsFinishedWrites | lib/natpunch_mux/conn.go:324-348 | at end of file every byte of every write that had returned before the close has been returned, nothing was written since, and if no write was under way at the close exactly the bytes written have been returned |
| StreamTheorems.ReadsKeepMessages | lib/natpunch_mux/conn.go:349-363 | a read never mixes two writes, and one that starts at a boundary with room for the next write returns exactly that write |
| StreamTheorems.RunChain | lib/natpunch_mux/conn.go:310-317 | reads follow on from each other without gap or overlap |
| Windows.SameWordSameWindow | lib/natpunch_mux/conn.go:131-155 | comparing packed words is comparing windows, so the compare-and-swap on the word is one on the record |
| Windows.SendWindow.SetSize | lib/natpunch_mux/conn.go:471-514 | an uninterrupted call does the load and swap steps of the stream model on the packed word and asks for a wake-up exactly when they do |
| Windows.SendWindow.Sent | lib/natpunch_mux/conn.go:526-542 | an uninterrupted call does the counting step on the packed word |
| Windows.SendWindow.WriteTo | lib/natpunch_mux/conn.go:544-596 | an uninterrupted call cuts and counts the segment that the steps cut, or reports a drained buffer, or parks |
| Windows.ReceiveWindow.Accept | lib/natpunch_mux/conn.go:280-306 | the window update before a push does the three steps of the model and acknowledges with the same two numbers |
| Windows.ReceiveWindow.SendStatus | lib/natpunch_mux/conn.go:366-403 | reporting after an element does the three steps of the model and acknowledges with the same two numbers |
| LittleEndian.PutInto | lib/natpunch_mux/netpackager.go:45 | stores the bytes of a number at a position and leaves the rest of the buffer |
| LittleEndian.GetPut | lib/natpunch_mux/netpackager.go:113-119 | reading back a stored number gives the number |
| LittleEndian.PutGet | lib/natpunch_mux/netpackager.go:137-151 | a read number fits its width and stores back to the same bytes |
| Frames.Packager.SetContent | lib/natpunch_mux/netpackager.go:22-42 | the content becomes the given bytes, or empty when they exceed a segment |
| Frames.Packager.Set | lib/natpunch_mux/netpackager.go:93-108 | the packager then describes the requested frame, which is well formed |
| Frames.Packager.Pack | lib/natpunch_mux/netpackager.go:110-126 | appends exactly the encoding of the loaded frame to the link |
| Frames.Packager.UnpackContent | lib/natpunch_mux/netpackager.go:54-74 | reads a length and so many bytes, or fails with the error of the first short read or size check |
| Frames.Packager.Unpack | lib/natpunch_mux/netpackager.go:128-157 | reads one frame, leaves the rest of the stream, and counts the bytes of its encoding |
| Frames.ReadSession | lib/natpunch_mux/mux.go:278-288 | reading in a loop yields the frames up to the first error, and that error |
| Frames.RoundTrip | lib/natpunch_mux/netpackager.go:110-157 | a well-formed frame followed by any bytes is read back and leaves those bytes |
| Frames.DecodeIsCanonical | lib/natpunch_mux/netpackager.go:128-157 | whatever is read as a frame is well formed and its encoding is exactly the bytes consumed |
| Frames.AllFramesSurvive | lib/natpunch_mux/netpackager.go:110-157 | any list of frames packed one after another is read back exactly |
| Frames.CutFrameFails | lib/natpunch_mux/netpackager.go:54-74 | a proper prefix of a frame is never read as a frame; the error is a clean end exactly when the cut falls between two reads |
| Frames.CutStream | lib/natpunch_mux/netpackager.go:128-157 | a link cut inside a frame yields the whole frames before it and then that error |
| Frames.SegmentCheckRedundant | lib/natpunch_mux/netpackager.go:62-69 | the second size check never fires |
| Frames.ContentSurvivesIffFits | lib/natpunch_mux/netpackager.go:24-31 | content reaches the other side exactly when it is at most 4085 bytes, and otherwise arrives as an empty frame |
| Link.StreamSurvivesLink | lib/natpunch_mux/mux.go:158-188 | through the priority queue, the codec and the session reader, with any frames of others in between, the frames of a stream that are read and then those still queued are those that were queued, in order |
| Link.CarriersAreExact | lib/natpunch_mux/mux.go:318-347 | every data or close frame in flight in any run fits a link frame, travels in the lowest class, and is what the other side recovers |
| Link.AckCarrierExact | lib/natpunch_mux/mux.go:338-343 | the two numbers of an acknowledgement cross in one packed window, in the lowest class |
| Multiplexer.RefinesStreams | lib/natpunch_mux/mux.go:142-370 | in every run of the link every stream of either direction is where one run of the stream model takes it, and what the write queue, the bytes on the link and the session reader hold of it is that model's wire and acknowledgements, in order |
| MultiplexerTheorems.ReadsArePrefix | lib/natpunch_mux/mux.go:142-370 | on a shared link what each reader gets is a prefix of what its own writer wrote |
| Multiplexer.HeadIsNext | lib/natpunch_mux/mux.go:278-288 | what the session reader decodes next from the bytes written is the next frame that the write queue served |
| Multiplexer.OtherLanes | lib/natpunch_mux/mux.go:142-163 | a step of one stream changes nothing of what the link holds of another |
| MultiplexerTheorems.NeverHeldUp | lib/natpunch_mux/mux.go:315-347 | when the session reader cannot hand out a frame yet it is at work in that frame's stream, and its own next step there is an enabled event of the link, or is refused only by a full write queue, which then has a frame to serve |
| MultiplexerTheorems.ParkedHasEvent | lib/natpunch_mux/mux.go:142-370 | while the writer of an open stream is parked and its window was never set to zero, some event of the link moves (a frame is served or handed out, or a goroutine goes on), or the stream's reader rests on unread bytes |
| MultiplexerTheorems.EndReturnsFinishedWrites | lib/natpunch_mux/conn.go:324-348 | at end of file on a shared link every byte of every write that had returned before the close has been returned, nothing was written since, and if no write was under way exactly the bytes written |
| UdpSession.RunInv | server/proxy/udp.go:128-284 | every interleaving of packets, builders, removers, the sweeper, close and other connections keeps the session invariant |
| UdpSession.SlotsExact | lib/file/obj.go:115-131 | the client's count is the builders between taking and returning a slot plus the slots of others, and the builders never exceed a positive limit |
| UdpSession.AllSlotsReturn | server/proxy/udp.go:203-204 | when every builder is done no slot is missing |
| UdpSession.ReadyClosedOnce | server/proxy/udp.go:191-217 | the ready channel is closed once, exactly when the session stops being built |
| UdpSession.TargetGuarded | server/proxy/udp.go:154-170 | a goroutine about to use a target has a ready session, built without error, whose target is set, and a removal closes the target of no other session |
| UdpSession.TargetSettled | server/proxy/udp.go:187-217 | once a session is ready no step changes its target |
| UdpSession.WaitersProgress | server/proxy/udp.go:154-217 | a packet that waits for a session can go on, or the session's builder has its next step enabled and that brings the session nearer to being ready |
| UdpEviction.MarksAreHistory | server/proxy/udp.go:269-284 | a remover that is about to delete carries the overtaken mark exactly when its key has been deleted since its comparison |
| UdpEviction.EvictsIffOvertaken | server/proxy/udp.go:269-284 | a delete in removeSession hits another session exactly when the schedule deleted the key after the comparison and the key is there again |
| UdpEviction.EntriesAreHistory | server/proxy/udp.go:128-151 | in any reachable state a session's key maps to it exactly until somebody deletes the key after the session was placed |
| UdpEviction.StepEvictsIff | server/proxy/udp.go:191-284 | in any reachable state a step takes an entry from a session that is not its own exactly if it is a delete whose key the schedule deleted since the comparison, or a failing build whose key the schedule deleted since its session was placed, and the key is there again |
| UdpEviction.SequentialNeverEvicts | server/proxy/udp.go:191-284 | if no two removers of one key are ever both between comparison and delete, nothing is evicted before close, by removals or failing builds |
| UdpEviction.OverlapEvicts | server/proxy/udp.go:269-284 | from any reachable open state with two such removers a delete, a packet and a new session lead to the eviction of that session by the other delete |
| UdpSession.OneBuilderPerKey | server/proxy/udp.go:128-151 | before close and without an eviction, a key has at most one session being built and packets find it |
| UdpEviction.EvictionHappens | server/proxy/udp.go:269-284 | a run in which removal evicts a session that is being built and a second one is built beside it |
| UdpEviction.FailedBuildEvicts | server/proxy/udp.go:191-196 | a run in which the failing build of one session takes the entry of another that is being built |
| Chunked.Reader.ReadSlice | server/proxy/http.go:432 | a piece up to the newline, a full buffer without one, or all there is |
| Chunked.ReadLineLimited | server/proxy/http.go:429-450 | the next line if it is at most the limit, otherwise the right error, for every buffer size |
| Chunked.CopyTrailers | server/proxy/http.go:472-486 | copies trailer lines up to the blank one, at most 64 lines |
| Chunked.CopyData | server/proxy/http.go:488-496 | copies the data and the two bytes after it, or what there is of the data |
| Chunked.CopyRawChunked | server/proxy/http.go:452-498 | writes what the specification says, fails when it does, writes only a prefix of what it consumed and on success all of it |
| Chunked.CopyComplete | server/proxy/http.go:452-498 | every accepted body is copied whole and what follows it is left |
| Chunked.CopySound | server/proxy/http.go:452-498 | a copy that succeeds has copied exactly an accepted body |
| Chunked.CopiesExactlyAccepted | server/proxy/http.go:452-498 | the copy succeeds exactly on inputs that start with an accepted body |
| Chunked.StandardBodyCopied | server/proxy/http.go:452-498 | every chunked body of section 7.1 of RFC 9112 within the limits and without blanks before extensions is copied byte for byte and the rest is left |
| Chunked.BlankBeforeExtension | server/proxy/http.go:461-468 | a size line with an extension is accepted exactly when no blank stands before the semicolon |
| Chunked.SizeLineValue | server/proxy/http.go:461-468 | a size line of hexadecimal digits in either case, with leading zeros and any extension, has the value of its digits |
| Chunked.CopyFaithful | server/proxy/http.go:452-498 | on any input the output is a prefix of the input, and a success leaves the rest |
| ClientHello.ClientHelloMsg.Unmarshal | lib/crypt/clientHello.go:50-253 | terminates on any bytes with every slice in range; succeeds and sets the fields exactly as the parse function says |
| ClientHello.ClientHelloMsg.ReadFixed | lib/crypt/clientHello.go:51-98 | the fixed part, the resets and the remaining bytes |
| ClientHello.ClientHelloMsg.ReadExtensions | lib/crypt/clientHello.go:114-250 | the extension loop applies each extension in turn and fails with the first bad one |
| ClientHello.ClientHelloMsg.ReadExtension | lib/crypt/clientHello.go:125-248 | one extension body is accepted and applied as the parse function says |
| ClientHello.ClientHelloMsg.ReadNames | lib/crypt/clientHello.go:127-157 | the first name of type 0 becomes the server name, unless it ends with a dot |
| ClientHello.ClientHelloMsg.ReadProtocols | lib/crypt/clientHello.go:226-242 | appends the listed protocols |
| ClientHello.MessageRoundTrip | lib/crypt/clientHello.go:50-253 | every encoded message with any mix, order and number of known and unknown extensions parses to what it means |
| ClientHello.RefusedIffDotted | lib/crypt/clientHello.go:146-155 | an encoded message is refused exactly when one of its host names ends with a dot |
| ClientHello.AcceptsExactly | lib/crypt/clientHello.go:50-253 | the parser accepts exactly the encodings of messages without a dotted host name |
| ClientHello.MessageSound | lib/crypt/clientHello.go:50-253 | an accepted input is the encoding of a message with exactly the parsed meaning |
| ClientHello.SetsOrKeeps | lib/crypt/clientHello.go:50-253 | curves, points, renegotiation data and the renegotiation flag are each what the message last sets, or else what the object held |
| ClientHello.AgreeIffSet | lib/crypt/clientHello.go:91-98 | two objects that held different values of such a field agree on it after the message exactly when the message sets it |
| ClientHello.OnlyKeptMatters | lib/crypt/clientHello.go:91-98 | apart from those the result does not depend on what the object held |
| Registry.DbUtils.GetClientCount | lib/file/db.go:215-225 | counts the clients that are not synthetic, in whatever order they are visited |
| Registry.DbUtils.VerifyVkey | lib/file/db.go:355-366 | true exactly when no other client has the key |
| Registry.DbUtils.VerifyUserName | lib/file/db.go:368-379 | true exactly when no other client has the name |
| Registry.DbUtils.NextClientId | lib/file/file.go:243-255 | the search ends and gives the smallest positive id not in use |
| Registry.DbUtils.ChooseKey | lib/file/db.go:326-339 | the given key if it is free, or the first generated key that is |
| Registry.DbUtils.NewClient | lib/file/db.go:306-353 | refuses for the first failing check and changes nothing, or stores the record, also when the file cannot be written |
| Registry.DbUtils.DelClient | lib/file/db.go:206-209 | the client is gone whether or not the file can be written |
| Registry.DbUtils.GetIdByVerifyKey | lib/file/db.go:83-99 | the first enabled match in visiting order, whose address is noted and nothing else changed |
| Registry.RunInv | lib/file/db.go:306-353 | after any registrations with ids that are not negative and any deletions: records keyed by their own positive id, distinct keys, distinct non-empty names, no password in the clear, and the quota kept |
| Registry.PositiveIffNotNegative | lib/file/db.go:343-349 | a registration keeps records keyed by their own positive id exactly when the given id is not negative |
| Registry.NegativeIdStored | lib/file/db.go:343-349 | a run that stores a client under a negative id |
| Registry.SmallestFree | lib/file/file.go:243-255 | a new id is free, at most the number of clients plus one, and every smaller one is taken |
| Registry.LookupIgnoresOrder | lib/file/db.go:83-99 | in any reachable registry a login finds its client, and the same one, in every visiting order |
| Registry.RegisteredLogsIn | lib/file/db.go:83-99 | an enabled client that was registered logs in with its key under its own id in any visiting order, and after its deletion nobody does |
| SocksUdp.Addr.Encode | lib/common/netpackager.go:66-95 | writes the encoded address at its position and leaves the rest of the buffer |
| SocksUdp.Addr.Decode | lib/common/netpackager.go:42-64 | sets the address that the bytes encode, or refuses an unknown kind |
| SocksUdp.WriteHeader | lib/common/netpackager.go:97-112 | writes exactly the header bytes |
| SocksUdp.WriteDatagram | lib/common/netpackager.go:190-205 | writes the header bytes and the data |
| SocksUdp.ReadUDPDatagram | lib/common/netpackager.go:119-181 | reads what the specification says whatever the pooled buffer held before |
| SocksUdp.AddrRoundTrip | lib/common/netpackager.go:42-95 | an encoded address decodes to its normal form |
| SocksUdp.UnchangedIffCanonical | lib/common/netpackager.go:66-88 | an address is its own normal form exactly when it is a domain name or the printed text of an IP address of its kind |
| SocksUdp.StandardRoundTrip | lib/common/netpackager.go:149-161 | with a zero reserved field a written datagram reads back with its header and as much data as fits the buffer |
| SocksUdp.WholeIffFits | lib/common/netpackager.go:152-155 | the data come back whole exactly when the datagram is at most 1672 bytes |
| SocksUdp.FramedRoundTrip | lib/common/netpackager.go:162-170 | with the reserved field as data length a datagram of at most 1672 bytes reads back from any longer stream without touching the rest, and a larger one is refused |
| SocksUdp.RelayExact | lib/common/netpackager.go:119-205 | writing a datagram that was read gives back exactly the bytes read |
| SocksUdp.LongNameLost | lib/common/netpackager.go:76-79 | a domain name of more than 255 bytes is never what is read back |
| Lru.Cache.Add | lib/cache/lru.go:41-54 | the key comes to the front with the value, and a new key over the limit pushes the oldest out |
| Lru.Cache.Get | lib/cache/lru.go:57-65 | the value of the association list, whose entry comes to the front |
| Lru.Cache.Remove | lib/cache/lru.go:68-74 | the key is gone from list and index |
| Lru.Cache.RemoveOldest | lib/cache/lru.go:77-88 | the last entry is gone from list and index |
| Lru.Cache.RemoveElement | lib/cache/lru.go:90-97 | list and index lose the same entry |
| Lru.Cache.Len | lib/cache/lru.go:100-104 | the number of entries |
| Lru.Cache.Clear | lib/cache/lru.go:107-120 | an empty cache that can be used again |
| Lru.RunBounded | lib/cache/lru.go:41-120 | after any operations keys are distinct and a positive limit is kept; with a negative one the cache stays empty |
| Lru.RemoveForgets | lib/cache/lru.go:68-74 | after a removal the key is not found and every other key as before |
| Lru.TouchKeepsValues | lib/cache/lru.go:57-65 | a lookup changes the value of no key |
| Lru.AddFinds | lib/cache/lru.go:41-54 | in any reachable cache an added key is found with its value exactly when the limit is not negative |
| Lru.HoldsMostRecent | lib/cache/lru.go:41-65 | with a positive limit and no removals the cache holds exactly the most recently used keys with their last values |

## Left out

- Deadlines, timeouts of reads and writes, closing the whole multiplexer (a run of the link ends where a
  write queue overflows), and a local close that races with a reader of the same side; the first end of
  file is terminal. The two directions of a connection are two streams, closed independently.
- The measurements of `calcSize` (bandwidth, latency, ping): its loop takes any measured size from the
  initial one on, with real numbers for the bandwidths and ratios, and any result where a number beyond
  32 bits is converted; the stream model itself takes any 31-bit maximum.
- The starvation hint and `Gosched` calls of the ring and the queues, which only yield.
- Chain growth with several producers: growth uses a head pointer loaded before its lock flag is taken,
  so the chain is claimed for one producer, as the receive window has; many producers are claimed for
  one ring.
- In the step systems a compare-and-swap loop whose new value depends on the swapped word alone is one
  step, since a failed attempt changes nothing. A push on the write queue is one step in the stream
  model, and a whole `Push` or `TryPop` is one step in the priority queue.
- The concurrent parts are modelled on values; the ring, the windows, the packager, the cache, the
  registry, the parser and the codecs also as objects. `readFromQueue` and the chain's linked elements
  exist only as steps on values.
- `priorityQueue.Pop` with its condition variable, `connQueue`, opening a stream and using an id again.
- An acknowledgement that arrives after the writer has closed stays in flight in the stream model; the
  link model drops it, as the code does, and says nothing of acknowledgements from then on.
- Pooling and aliasing of byte slices: contents are values. Buffers that come from a pool hold arbitrary
  bytes.
- `Frames.Packager.Unpack`: does not say what the fields hold after an error, because the session ends.
- `ClientHello.ClientHelloMsg.Unmarshal`: does not say what the fields hold after a refusal, because the
  caller drops the object; the four-byte handshake header is not looked at, as in the code.
- Errors of the writer in the chunked copier and the datagram writer, and read errors other than the end
  of input.
- `Windows.SendWindow.Sent`: requires that the counter does not wrap, which holds in every run, because
  otherwise the source loops until another goroutine changes the word.
- The text of IP addresses is any print and parse pair that invert each other, with IPv4 addresses
  parsing to their mapped form, as the Go library has them.
- `SocksUdp.Addr.Encode`: requires room for the address, because the source panics without it.
- The registry is used by one goroutine at a time; records are values, so that a refused client object
  keeping its hashed password or generated key is not modelled. Hashing is a parameter, injective where
  lookup needs it; key generation is a list of candidates with a free one. Ids are unbounded integers.
  `UpdateClient`, which stores without these checks, and loading from files are not modelled; negative
  ids, which `NewClient` stores under themselves (`Registry.PositiveIffNotNegative`), are excluded from the
  run theorem.
- `NowConn` is an unbounded integer, and the limit of a client is fixed during a run.
- `OnEvicted` callbacks and the cache's lock.
- Everything else in the repository: the web panel, TLS, KCP, Shadowsocks, configuration, the other
  proxies and the client program.
