# A model of the RDMA transport, the zcopy protocol and the object store

A Dafny model of three parts of this repository, with proofs of what they keep.

**The message transport** (`Counters`, `Wire`, `SendRing`, `Transport`, `RecvSlots`). A connection is a class with the
fields of the C structure: the ring of staging buffers, `tx_prod` and `send_completed` as wrapping 32-bit counters beside
unbounded ghost counts, and the queue pair below it as an in-order device that may run, by any amount, between any two
steps of the code. The device moves requests to the peer in order, retires them in order and reports only the signalled
ones; overwriting a buffer it has yet to read would break the connection's invariant. Above the ring, a log of requests
moved only in part is compared with what the receiver reads out of its frames and its memory. The receiving half is a
class of circulating slots.

**The zcopy protocol** (`Protocol`, `Gate`, `Pending`, `Releases`, `Listener`, and the `Zcopy*` modules). One client and
one server are composed into a step system with two FIFO channels, the client's send queue and shared memory, the serve
loop and any number of GET goroutines. A run is any interleaving of 28 kinds of event, failures and timeouts among them.
The invariants name only the parts of the state they speak of (`ZcopyInv`); each step keeps them (`ZcopyClientSteps`,
`ZcopyLoopSteps`, `ZcopyServerSteps`, `ZcopyTheorems`) or causes one of four lasting flaws, and `ZcopyFlaws` says exactly
which step causes which (`ZcopyFrames` has what steps leave alone). Alignment of the two streams (`ZcopyStreams`), when
each stops parsing (`ZcopyBreaks`), credits, who waits for whom and how a connection comes to rest (`ZcopyCredits`,
`ZcopyWork`), the end-to-end meaning of a GET (`ZcopyGets`), which answer each call gets (`ZcopyAnswers`) and when a call
is over (`ZcopyCalls`) follow for all runs, and `ZcopyRuns` has concrete runs, good and bad. A payload that is read where a
control message is expected is decoded like one: what the decoder makes of it is a parameter of the model. `ZcopyWire` shows
that the transport refines the channel to the client. The credit gate, the table of pending calls and the table of release
closures are also given as classes, with their own machines for every interleaving.

**The object store** (`ObjectIds`, `StoreSpec`, `Store`, `Loader`). The store is a class with the maps, the byte counter,
the list and the index of the source, proved to refine puts and deletes on one sequence of objects; the loader is a client
of that class.

## What the code does that its callers may not expect

- The slot `tx_prod % send_depth` jumps when the counter wraps unless the depth divides 2^32
  (`Counters.WrapSafeIffDepthDivides`). The methods of `SendRing.Connection` ask for a depth that does, or fewer than 2^32
  posts.
- Releasing an older borrowed message late gives back the slot of a newer one (`RecvSlots.LateReleaseHitsNewerView`,
  `RecvSlots.ViewKeptIff`).
- A receive that times out has already given the reader's current view back (`RecvSlots.WaitingInVainLosesView`).
- `SendMessageAt` truncates length and offset to 32 bits, and so is the length of the shared memory truncated at setup, where
  the check against it can then never fail. A GET at offset 2^32 lands at 0 (`SendRing.WholeIffShort`,
  `ZcopyGets.PayloadWholeIff`, `ZcopyRuns.HighOffsetLandsElsewhere`). If the length is a multiple of 2^32 the transport
  registers a buffer of its own, and GETs succeed without their bytes (`ZcopyRuns.SuccessWithoutBytes`).
- When the caller's payload could not be registered and a WRITE fails half-way, requests that read the caller's memory may
  still be in flight on return (`SendRing.CallerMemoryInFlight`).
- A deregistration failure is reported as an error although the message was announced (`SendRing.AnnouncedYetFailed`).
- A GET of an empty object sends a header and nothing after it, which tears the stream
  (`ZcopyRuns.EmptyObjectTearsStream`, `ZcopyBreaks.StreamBreaksIff`).
- A PUT refused for its size is answered without its payload being drained, and the payload is then read as a control
  message. The connection ends only if it does not decode (`ZcopyStreams.RejectedPutLeavesPayload`); if it has the form of
  one, it is obeyed (`ZcopyRuns.RefusedPutAddsCredits`, `ZcopyRuns.RefusedPutOverwritesBuffer`).
- `Max` 0 means no limit to the server and an empty window to the client (`ZcopyGets.ZeroMaxOverruns`,
  `ZcopyGets.ZeroMaxOverwrites`, `ZcopyRuns.ZeroMaxRun`).
- A caller that leaves, or gives up sending, when its payload is already in its channel loses a credit for good
  (`ZcopyCredits.LostIffLoses`). Once every credit is lost GETs wait for ever (`ZcopyCredits.AllLostStarves`,
  `ZcopyRuns.OnlyCreditLost`).
- Under the fifo policy a folder load that reports success may have evicted its own first files
  (`Loader.FifoKeepsBucketIff`, `Loader.LoadLosesFile`).
- Connections still in the accept channel when the listener closes are never closed
  (`Listener.LeftIffNotTaken`, `Listener.ClosedWithConnectionLeft`).
- Ids of objects collide, or cannot be taken apart again, for bucket names that are empty or hold a NUL, and such objects may
  be passed over by eviction (`ObjectIds.IdsCollide`, `Store.NameThatCannotGo`).

Preconditions that come from the rest of the system: one sender at a time per connection (the client's send loop and the
server's send lock), a frame capacity of at least 28 bytes (the descriptor exchange at setup fails otherwise), a positive
ring depth below 2^31, payloads below 4 GiB at the C boundary, shared memory that is not empty (a client without any is
refused) and, where a theorem says so, below 4 GiB (`Zcopy.Usable`), and live GET windows pairwise disjoint and not written
by the application.

## Model

| member | source | states |
|---|---|---|
| Counters.SignedDifference | pkg/rdma/verbs_linux_cgo.go:597-601 | the signed difference of two wrapped counters is the true distance, for distances below 2^31 |
| Counters.SlotsDistinct | pkg/rdma/verbs_linux_cgo.go:1538-1539 | two requests less than the depth apart never share a slot, while the slot sequence is continuous |
| Counters.SlotIsTrueSlot | pkg/rdma/verbs_linux_cgo.go:1538-1539 | until the wrap, or for ever if the depth divides 2^32, the wrapped counter picks the slot the unbounded count would |
| Counters.WrapSafeIffDepthDivides | pkg/rdma/verbs_linux_cgo.go:1538-1539 | across the wrap of tx_prod slots stay collision-free if and only if the depth divides 2^32 |
| Wire.ChunksRebuild | pkg/rdma/verbs_linux_cgo.go:1626-1645 | cutting a payload loses nothing: the pieces are non-empty, fit a frame and concatenate to it |
| Wire.FramesArrive | pkg/rdma/verbs_linux_cgo.go:1626-1650 | the frames of a SEND message arrive as its pieces, in order, and touch no memory |
| Wire.WritesReplaceExactly | pkg/rdma/verbs_linux_cgo.go:1881-1953 | the chunk loop of a WRITE replaces exactly [offset, offset+len) of the peer's memory |
| Wire.WritesStayInside | pkg/rdma/verbs_linux_cgo.go:1881-1953 | no chunk of a WRITE touches a range disjoint from its own |
| Wire.UntouchedKeeps | pkg/rdma/verbs_linux_cgo.go:1881-1953 | a range no request touches keeps its bytes, however much of a log has been moved |
| Wire.NotifyRoundTrip | pkg/rdma/verbs_linux_cgo.go:2907-2922 | a frame parses as a notify exactly when it is the encoding of that notify |
| Wire.ParseOfEncode | pkg/rdma/verbs_linux_cgo.go:2907-2922 | every notify sent parses back to itself |
| SendRing.CompletionsBound | pkg/rdma/verbs_linux_cgo.go:978-981 | unreaped completions never exceed the requests not yet known to be complete |
| SendRing.OldestCompletion | pkg/rdma/verbs_linux_cgo.go:590-601 | the head of the completion queue names the oldest signalled request, and reaping it accounts for every earlier one |
| SendRing.Connection.constructor | pkg/rdma/verbs_linux_cgo.go:584-623 | a fresh connection: counters zero, nothing posted, peer as given |
| SendRing.Connection.PeerIsFifoPrefix | pkg/rdma/verbs_linux_cgo.go:1511-1598 | at every moment the peer is what a FIFO of the posted requests, moved up to some point, makes of it |
| SendRing.Connection.CompletionQueueFits | pkg/rdma/verbs_linux_cgo.go:978-981 | completions in the queue never exceed the ring depth, hence the capacity chosen at setup |
| SendRing.Connection.SlotIsFree | pkg/rdma/verbs_linux_cgo.go:1533-1539 | after the slot wait the slot of tx_prod belongs to no unretired request, also across counter wrap |
| SendRing.Connection.OutstandingIsTrue | pkg/rdma/verbs_linux_cgo.go:616-616 | tx_prod - send_completed on wrapped counters is the true number outstanding |
| SendRing.Connection.Transmit | pkg/rdma/verbs_linux_cgo.go:1571-1595 | the bytes the NIC reads from a staging buffer are the bytes that were posted |
| SendRing.Connection.ReapDataSendCompletion | pkg/rdma/verbs_linux_cgo.go:584-604 | one reaped completion moves send_completed strictly forward, never past tx_prod, and leaves the rest of the queue consistent; it gives up only if there is none |
| SendRing.Connection.WaitLocalSendSlot | pkg/rdma/verbs_linux_cgo.go:606-623 | ends with a free slot or a timeout; a full ring always has a completion to come, so it ends |
| SendRing.Connection.WaitSendCompletedUntil | pkg/rdma/verbs_linux_cgo.go:625-643 | when it succeeds every request up to the target has been sent and retired; its target was signalled, so it ends |
| SendRing.Connection.NeedSignal | pkg/rdma/verbs_linux_cgo.go:1545-1557 | a request is signalled exactly if asked for, if it ends an interval of signalInterval, each one if that is at most 1, or if it fills the ring; so the request that fills the ring always is |
| SendRing.Connection.SendFrame | pkg/rdma/verbs_linux_cgo.go:1511-1598 | posts exactly one SEND of the payload or nothing; too large a payload is refused; staged or inline, never caller memory |
| SendRing.Connection.SendMessage | pkg/rdma/verbs_linux_cgo.go:1600-1651 | posts exactly the frames of the payload, or a prefix of them on an error; the last is signalled |
| SendRing.Connection.PostWriteChunks | pkg/rdma/verbs_linux_cgo.go:1701-1776 | the chunk loop posts exactly the WRITEs of the payload, or a prefix, each signalled |
| SendRing.Connection.Cleanup | pkg/rdma/verbs_linux_cgo.go:1805-1822 | a registered payload is sent in full before its registration goes; an earlier error is kept, and a success becomes an error exactly if the registration cannot be undone |
| SendRing.Connection.SendMessageRwAt | pkg/rdma/verbs_linux_cgo.go:1825-1997 | out of range, unusable or empty: posts nothing, with the right error; success: the chunks then the notify, every chunk already in place; once all of it is posted only a failing deregistration makes an error of it; caller memory still being read only if unregistered and failing |
| SendRing.CallerMemoryInFlight | pkg/rdma/verbs_linux_cgo.go:1955-1960 | a call of SendMessageRwAt that ends so: it returns a timeout, and the NIC has yet to read the caller's memory |
| SendRing.AnnouncedYetFailed | pkg/rdma/verbs_linux_cgo.go:1981-1996 | a call of SendMessageRwAt that returns an error although the whole message is posted and its bytes are in place |
| SendRing.Connection.SendMessageRw | pkg/rdma/verbs_linux_cgo.go:1653-1823 | slotted write: too large, unusable or empty posts nothing and says why; success posts the chunks then the notify; the slot counter moves on only for an announced message; without a timeout and with no request refused a payload within the peer's capacity always goes out whole |
| SendRing.Connection.SendPayload | pkg/rdma/verbs_linux_cgo.go:2688-2776 | picks SEND or slotted WRITE by size, and SEND when the WRITE is refused, so never ends with the refusal of a WRITE; without a timeout and with no request refused every payload goes out, of any size and to any region, unless its own deregistration fails |
| SendRing.Connection.SendPayloadAt | pkg/rdma/verbs_linux_cgo.go:2781-2830 | a negative offset is refused; a success has posted the requests for this payload at this offset if and only if length and offset are below 2^32; without a timeout and with no request refused what is left after the cut goes out whenever it lies in the peer's region |
| SendRing.WholeIffShort | pkg/rdma/verbs_linux_cgo.go:2806-2812 | the requests after the cut to 32 bits are those asked for exactly when neither length nor offset was cut |
| SendRing.HighOffsetIsLow | pkg/rdma/verbs_linux_cgo.go:2806-2812 | offsets that differ by a multiple of 2^32 give the same requests |
| Transport.AnnouncedArrives | pkg/rdma/verbs_linux_cgo.go:1955-1979 | a notify frame is never receivable before the bytes it announces are in place, and they stay until a later request touches them |
| Transport.WriteAtRoundTrip | pkg/rdma/verbs_linux_cgo.go:2040-2073 | what is written at an offset is read back as that payload and that offset, until a later write hits the range |
| Transport.WriteAtStaysInside | pkg/rdma/verbs_linux_cgo.go:1881-1953 | at every moment of an offset write nothing outside its range has changed |
| Transport.SlotsApart | pkg/rdma/verbs_linux_cgo.go:1999-2038 | distinct slots of a region never overlap |
| Transport.LaterSparesSlot | pkg/rdma/verbs_linux_cgo.go:1701-1704 | until as many further slotted writes as there are slots, nothing sent later touches a message's slot |
| Transport.SlotComesRound | pkg/rdma/verbs_linux_cgo.go:1701-1704 | the bound on further slotted writes is exact: the next one reuses the slot |
| Transport.SlottedMessageReads | pkg/rdma/verbs_linux_cgo.go:3031-3057 | a slotted message read in time is that message, at its slot's offset for caller-provided memory |
| Transport.MessagesAreFifo | pkg/rdma/verbs_linux_cgo.go:2716-2756 | whatever has been moved of a run of messages, frame j read in time is message j |
| Transport.ConnectionIsFifo | pkg/rdma/verbs_linux_cgo.go:2688-2776 | a live connection that has posted a prefix of the log of some messages is a FIFO of them, whatever its NIC has done so far |
| Transport.SendAll | pkg/rdma/verbs_linux_cgo.go:2688-2776 | what a run of SendMessage calls on a fresh connection posts is the log of its messages, or a prefix that holds at least those that succeeded; all of them succeed without a timeout and with no request refused |
| Transport.SendAllIsFifo | pkg/rdma/verbs_linux_cgo.go:2688-2776 | so from a fresh connection alone: after any run of sends and any NIC activity every frame read in time is the message of its number, and all are there once everything is moved |
| Transport.ConnectionDelivers | pkg/rdma/verbs_linux_cgo.go:2688-2776 | once the NIC has moved everything, each message of the run has put exactly one frame into the inbox |
| Transport.WrittenBytesInPlace | pkg/rdma/verbs_linux_cgo.go:1955-1979 | when an offset write has succeeded its bytes are in the peer's memory |
| Transport.FallbackArrivesInPieces | pkg/rdma/verbs_linux_cgo.go:2733-2747 | above the slot capacity the payload arrives as frames that concatenate to it |
| RecvSlots.PartitionPlaces | pkg/rdma/verbs_linux_cgo.go:670-720 | each receive slot is posted, completed or held, exactly once |
| RecvSlots.Receiver.constructor | pkg/rdma/verbs_linux_cgo.go:670-720 | after setup every slot is posted |
| RecvSlots.Receiver.Arrive | pkg/rdma/verbs_linux_cgo.go:645-668 | an arriving frame fills a slot nobody else has |
| RecvSlots.Receiver.ReleaseLastRecvSlot | pkg/rdma/verbs_linux_cgo.go:2075-2095 | gives the held slot back to the queue, or keeps it when the repost is refused, which a queue that accepts them never does |
| RecvSlots.Receiver.RecvFrame | pkg/rdma/verbs_linux_cgo.go:2097-2155 | the k-th successful receive returns the k-th frame that arrived, whole, and holds its slot; it ends without a frame only if none waits and none arrives meanwhile, or if a repost is refused; a receive that times out has given the held slot back all the same |
| RecvSlots.Receiver.PollRecvCq | pkg/rdma/verbs_linux_cgo.go:2130-2154 | the checks on the work request number and the frame length never fail |
| RecvSlots.Receiver.RecvBorrowedMessage | pkg/rdma/verbs_linux_cgo.go:3005-3063 | turns the next frame into the message it stands for, always if it stands for one and no repost is refused; a notify's slot goes straight back; each outcome, a timeout and a refused repost among them, is one action of the abstract reader |
| RecvSlots.Receiver.ReleaseBorrowed | pkg/rdma/conn.go:39-47 | one-shot; gives back whatever slot is held at that moment |
| RecvSlots.SendAndReceive | pkg/rdma/verbs_linux_cgo.go:2688-3063 | sender to receiver: every message sent without a timeout and with no request refused is returned, whole and in order, by a receiver whose queue takes slots back, while no slot of the region is used twice |
| RecvSlots.ViewKeptIff | pkg/rdma/verbs_linux_cgo.go:3058-3062 | a SEND view stays the reader's exactly while no receive is attempted, not even in vain, and no open release, its own or an earlier one, gets through |
| RecvSlots.WaitingInVainLosesView | pkg/rdma/verbs_linux_cgo.go:2116-2123 | a receive that times out takes the view away |
| RecvSlots.LateReleaseHitsNewerView | pkg/rdma/verbs_linux_cgo.go:3058-3062 | a late release of an older message takes the slot of a newer one still in use |
| Gate.HelloServes | internal/s3rdmaserver/zcopy/service.go:155-163 | a hello of n lets exactly n GETs through, whatever was there before, and one if n is not positive |
| Gate.AckServes | internal/s3rdmaserver/zcopy/service.go:145-153 | an ack of n lets exactly n more through than would have got through without it, none if n is not positive |
| Gate.CloseLeavesNobodyAsleep | internal/s3rdmaserver/zcopy/service.go:138-143 | after close no look at the gate ends in sleep, however many have looked before |
| Gate.GrantsAreCredits | internal/s3rdmaserver/zcopy/service.go:165-177 | of k looks in a row exactly min(credits, k) are granted, none by a closed gate of the in-memory kind |
| Gate.EachCreditOneGoroutine | internal/s3rdmaserver/zcopy/service.go:145-177 | in every interleaving of goroutines that enter, wake, look and sleep, acks and close, those that got through have taken exactly the credits that are no longer there |
| Gate.WakeupsReachEveryone | internal/s3rdmaserver/zcopy/service.go:138-177 | in every interleaving no goroutine sleeps while there is a credit or the connection is closed |
| Gate.ShutdownDrains | internal/s3rdmaserver/zcopy/service.go:138-177 | after close, in every wake order, exactly min(credits, waiters) get a credit and the others fail (in-memory variant: none gets one), nobody sleeps, and every wait for a credit ends |
| Protocol.ParsesIffSound | internal/s3rdmaserver/zcopy/service.go:250-277 | a stream parses into control messages and adjacent header-data pairs exactly when the position-by-position reader never breaks |
| Protocol.ReadNext | pkg/rdma/client/client.go:480-512 | on a sound stream the next item is the kind the reader waits for |
| ZcopyTheorems.InitInv | pkg/rdma/client/client.go:110-176 | every invariant holds when a connection starts |
| ZcopyClientSteps.IssueKeeps | pkg/rdma/client/client.go:631-662 | a new call keeps every invariant: its id is fresh and its window disjoint from live ones |
| ZcopyClientSteps.EnqueueKeeps | pkg/rdma/client/client.go:345-362 | queueing a request keeps every invariant |
| ZcopyClientSteps.GiveUpKeeps | pkg/rdma/client/client.go:656-659 | giving up on sending keeps every invariant, although the queue entry stays behind and a result may be there already |
| ZcopyClientSteps.TakeReplyKeeps | pkg/rdma/client/client.go:391-405 | taking a reply keeps every invariant; an error reply ends a GET window only when nothing more can arrive for it |
| ZcopyClientSteps.TakePayloadKeeps | pkg/rdma/client/client.go:664-708 | taking a payload keeps every invariant, whether the caller accepts it or acknowledges it at once |
| ZcopyClientSteps.LeaveKeeps | pkg/rdma/client/client.go:405-413 | leaving without a result, by timeout or close, keeps every invariant, even with one already buffered |
| ZcopyClientSteps.ReleaseKeeps | pkg/rdma/client/client.go:616-628 | releasing a buffer keeps every invariant: its credit goes back and its window is free |
| ZcopyClientSteps.AppWriteKeeps | pkg/rdma/client/client.go:711-713 | application writes outside lent windows keep every invariant |
| ZcopyLoopSteps.SendControlKeeps | pkg/rdma/client/client.go:322-343 | each control message of sendLoop, sent or failed, keeps every invariant |
| ZcopyLoopSteps.SendDataKeeps | pkg/rdma/client/client.go:567-581 | the payload half of a PUT keeps every invariant, sent or failed |
| ZcopyLoopSteps.RecvControlKeeps | pkg/rdma/client/client.go:483-499 | each control message of recvLoop keeps every invariant: a reply reaches only its own call |
| ZcopyLoopSteps.PayloadNext | pkg/rdma/client/client.go:500-508 | an untorn payload receive gets the payload sent with the header before it, for a window still live |
| ZcopyLoopSteps.RecvPayloadKeeps | pkg/rdma/client/client.go:499-511 | a payload receive keeps every invariant, whether a call still waits or the late payload is discarded and acknowledged |
| ZcopyLoopSteps.RecvFailKeeps | pkg/rdma/client/client.go:484-495 | the receive loop failing every pending call keeps every invariant |
| ZcopyServerSteps.ServeKeeps | internal/s3rdmaserver/zcopy/service.go:292-356 | each message the serve loop reads keeps every invariant: hello, ack, ensure-bucket, PUT and GET |
| ZcopyServerSteps.ServePayloadKeeps | internal/s3rdmaserver/zcopy/service.go:250-277 | the payload of a PUT keeps every invariant, accepted or ending the loop |
| ZcopyServerSteps.ServeReplyKeeps | internal/s3rdmaserver/zcopy/service.go:193-212 | each reply of the serve loop keeps every invariant, sent or failed |
| ZcopyServerSteps.NothingGranted | internal/s3rdmaserver/zcopy/service.go:311-319 | until hello is read there is no credit anywhere, so setting the counter grants no credit twice |
| ZcopyServerSteps.LookUpKeeps | internal/s3rdmaserver/zcopy/service.go:404-430 | the lookup of a GET keeps every invariant: the object found fits the window unless max is 0 |
| ZcopyServerSteps.GrantKeeps | internal/s3rdmaserver/zcopy/service.go:165-177 | a GET taking a credit keeps every invariant: the credit moves, none appears |
| ZcopyServerSteps.SendHeaderKeeps | internal/s3rdmaserver/zcopy/service.go:214-235 | the header of a GET keeps every invariant: sent under the send lock it carries the credit, failed it loses it |
| ZcopyServerSteps.SendPayloadKeeps | internal/s3rdmaserver/zcopy/service.go:214-237 | the payload of a GET keeps every invariant: sent, empty, refused or failed |
| ZcopyServerSteps.SendAnswerKeeps | internal/s3rdmaserver/zcopy/service.go:206-212 | the error reply of a GET keeps every invariant |
| ZcopyServerSteps.NextToLand | pkg/rdma/verbs_linux_cgo.go:1881-1953 | the payload next to land belongs to one GET, whose window is live and holds it |
| ZcopyServerSteps.LandSpares | pkg/rdma/verbs_linux_cgo.go:1881-1953 | what lands for one GET leaves every other delivered GET's bytes alone |
| ZcopyServerSteps.LandKeeps | pkg/rdma/verbs_linux_cgo.go:1881-1953 | a payload landing keeps every invariant: delivered objects stay in place |
| ZcopyServerSteps.LandPartKeeps | pkg/rdma/verbs_linux_cgo.go:1881-1953 | part of a payload landing keeps every invariant |
| ZcopyTheorems.StepKeeps | pkg/rdma/client/client.go:322-513 | every step of either side or the network keeps every invariant, unless a payload is read as a control message and obeyed |
| ZcopyTheorems.RunKeeps | internal/s3rdmaserver/zcopy/service.go:279-356 | every invariant holds in every state reached without obeying a payload |
| ZcopyFlaws.FlawIffCaused | internal/s3rdmaserver/zcopy/service.go:358-430 | the stream to the client is torn exactly by a payload that is empty, does not fit the registered region, is cut to 32 bits or fails after its header; the stream to the server exactly by a PUT payload that is cut or fails, or by a refused PUT; a window is exceeded exactly by a GET with max 0 of a non-empty object; a payload is obeyed exactly when one that decodes is read at a control receive |
| ZcopyFlaws.FlawlessIffAvoided | internal/s3rdmaserver/zcopy/service.go:358-430 | a run ends without one of these flaws if and only if none of its steps causes it (ZcopyBreaks ties the two torn streams to parsing) |
| ZcopyFlaws.NothingDecodesNothingObeyed | pkg/rdma/zcopyproto/protocol.go:46-55 | if no payload has the form of a control message none is ever obeyed |
| ZcopyStreams.StreamAlignment | internal/s3rdmaserver/zcopy/service.go:214-237 | over every run that avoids tearing it, whatever happens the other way, a stream parses, and each receive gets the kind of item it waits for: a payload receive exactly the payload right after its own header |
| ZcopyStreams.UntornFromStart | internal/s3rdmaserver/zcopy/service.go:214-237 | a run that tears neither stream never obeys a payload, whatever the payloads are |
| ZcopyBreaks.StreamBreaksIff | pkg/rdma/verbs_linux_cgo.go:1837-1839 | over every run, either way, whatever is torn, obeyed or lost: the stream stops parsing if and only if some payload sent that way was spoiled and anything was sent the same way from then on |
| ZcopyBreaks.MissingPayloadBreaksStream | pkg/rdma/verbs_linux_cgo.go:1837-1839 | a header left without payload frees the lock, and any next control message breaks the stream |
| ZcopyStreams.RejectedPutLeavesPayload | internal/s3rdmaserver/zcopy/service.go:377-379 | a refused PUT leaves its payload next in the stream, where the serve loop reads a control message; the loop ends if and only if the payload does not decode, or decodes as a message that ends it |
| ZcopyCredits.KindsStay | pkg/rdma/client/client.go:281-291 | what a request asked for never changes |
| ZcopyCredits.GrantedStays | internal/s3rdmaserver/zcopy/service.go:311-312 | only the one hello grants credits, and only once, unless a payload is obeyed |
| ZcopyCredits.CreditConservation | internal/s3rdmaserver/zcopy/service.go:145-177 | in every state reached without obeying a payload: server credits + GETs about to send + payloads in transit, in the receive loop, in channels and with callers + acks queued and in transit + lost = the credits granted, so unacknowledged payloads never exceed n |
| ZcopyCredits.ObeyedAckAddsCredits | internal/s3rdmaserver/zcopy/service.go:322-323 | an obeyed payload of the form of an ack adds its number to the credits, and to nothing else in that sum |
| ZcopyCredits.LostIffLoses | pkg/rdma/client/client.go:391-413 | while neither stream is torn a credit is lost exactly by a header that fails, an ack that fails, a waiter leaving or a sender giving up with the payload buffered |
| ZcopyCredits.WaiterNotStuck | internal/s3rdmaserver/zcopy/service.go:165-177 | while the loops go on, the client is open and not every credit is lost, a GET waiting for a credit always has another step possible, or a payload in the client's hands |
| ZcopyWork.ComesToRest | internal/s3rdmaserver/zcopy/service.go:279-356 | every step of the loops, goroutines and network leaves less to do, so without its callers a connection comes to rest within that many steps |
| ZcopyWork.WaitersAreServed | internal/s3rdmaserver/zcopy/service.go:165-177 | where such a run can go no further, a GET that waited has been let through, unless a payload is in the client's hands, every credit is lost, the stream is torn, a window was exceeded, a loop has ended or the client is closed |
| ZcopyWork.GoroutinesEnd | internal/s3rdmaserver/zcopy/service.go:279-291 | once the serve loop has ended the GET goroutines take a bounded number of steps, whatever the client and its callers do, and where none can take another one every one of them is done, header and payload sent or failed: the wait for them ends |
| ZcopyAnswers.EachCallItsAnswer | internal/s3rdmaserver/zcopy/service.go:292-402 | over every run that obeys no payload, the reply a call is handed is the one its request calls for: hello its credits, ensure-bucket success, a PUT success after its whole payload has been read, or an error if and only if it is larger than a positive limit, a GET an error only |
| ZcopyAnswers.EachRequestGoesOn | internal/s3rdmaserver/zcopy/service.go:292-402 | every request the serve loop reads gets on: a GET to its own goroutine, a PUT to be taken to its payload, and each other request to its right answer at once, hello with its credits granted |
| ZcopyAnswers.PutIsAnswered | internal/s3rdmaserver/zcopy/service.go:382-386 | on a stream to the server that is not torn the payload of such a PUT comes next, whole, and the PUT is answered with success |
| ZcopyAnswers.ReplyIsHandedOver | pkg/rdma/client/client.go:483-499 | a reply that is read is right for its call, and reaches it if it still waits, and nobody else |
| ZcopyAnswers.HelloOpensClient | pkg/rdma/client/client.go:415-441 | the client opens up to its callers with the answer to a hello that grants credits, and with no other reply |
| ZcopyAnswers.LookUpIff | internal/s3rdmaserver/zcopy/service.go:404-430 | the lookup accepts a GET if and only if an object is there under its trimmed names and is no larger than a positive max, and takes the object and the offset along |
| ZcopyAnswers.GetDecidedOnce | internal/s3rdmaserver/zcopy/service.go:404-430 | over every run that obeys no payload each GET is looked up at most once, and refused if and only if the store at that moment has no such object or one that does not fit; every GET handed an error was refused so, and every one that goes on has that object and its own offset |
| ZcopyCredits.AllLostStarves | internal/s3rdmaserver/zcopy/service.go:165-177 | once every credit is lost no GET is ever granted one again |
| ZcopyRuns.OnlyCreditLost | internal/s3rdmaserver/zcopy/service.go:224-231 | a run that gets there: the header of the first GET of a client with one credit fails |
| ZcopyGets.BodyComesFromStore | internal/s3rdmaserver/zcopy/service.go:422-429 | what a GET sends is the object found in the store, under the trimmed names, when it looked |
| ZcopyGets.TokenHoldsObject | pkg/rdma/client/client.go:699-708 | in a state that keeps the invariants, is not torn towards the client and exceeds no window, a held buffer has the offset asked for, at most max bytes, and the shared memory there holds the looked-up object |
| ZcopyGets.ArrivedIsAccepted | pkg/rdma/client/client.go:674-698 | a payload that reaches its caller passes every check made on it |
| ZcopyGets.PayloadIsHandedOver | pkg/rdma/client/client.go:499-511 | the payload that is read reaches the call that waits for it, with what its goroutine found, at its offset |
| ZcopyGets.ArrivedIsHeld | pkg/rdma/client/client.go:699-708 | and the caller then holds a buffer under a new token, at the offset asked for and as long as the object found |
| ZcopyGets.GetEndToEnd | pkg/rdma/client/client.go:631-709 | both together over every run from a start with less than 4 GiB of shared memory that does not tear the stream to the client, exceed a window or obey a payload: end-to-end correctness of concurrent GETs |
| ZcopyGets.PayloadWholeIff | pkg/rdma/verbs_linux_cgo.go:2806-2812 | the payload of a GET goes out whole, at the offset asked for, if and only if it is not empty, fits the region that the client's transport has registered, and neither its length nor its offset is cut to 32 bits |
| ZcopyGets.ZeroMaxOverruns | internal/s3rdmaserver/zcopy/service.go:425-427 | with max 0 the accepted object is larger than the window |
| ZcopyGets.ZeroMaxOverwrites | internal/s3rdmaserver/zcopy/service.go:425-427 | and every byte of it lands from the end of that empty window on |
| ZcopyRuns.ZeroMaxRun | internal/s3rdmaserver/zcopy/service.go:425-427 | such a run: the object is written over what lies at the offset, outside any window |
| ZcopyGets.OnlyWindowsChange | pkg/rdma/client/client.go:631-709 | apart from application writes no step changes a byte outside the live windows |
| ZcopyGets.LandsInOwnWindow | internal/s3rdmaserver/zcopy/service.go:236-236 | over every run that exceeds no window and obeys no payload, torn or not, what lands next goes to the offset of the GET whose header was sent right before it, and stays within its max |
| ZcopyGets.LandsInLiveWindow | internal/s3rdmaserver/zcopy/service.go:236-236 | and while the stream is not torn that GET's window is live |
| ZcopyGets.OnlyGetsChangeMemory | pkg/rdma/client/client.go:631-709 | a byte in the window of no GET ever made changes by application writes only, on a torn stream as well |
| ZcopyGets.NothingLateArrives | pkg/rdma/client/client.go:507-510 | once a window is given up nothing for that GET is left to be read |
| ZcopyGets.OneResultEach | pkg/rdma/client/client.go:285-312 | over every run, whatever is torn or obeyed, each call gets at most one result, of its own id |
| ZcopyCalls.OverIsForgotten | pkg/rdma/client/client.go:281-312 | over every run, whatever is torn or obeyed, while the client is open a call that is over has no entry and no result left, so that what comes for it later is given back at once |
| ZcopyCalls.WindowEndsIff | pkg/rdma/client/client.go:631-709 | a GET window is live from its call on until exactly one of: its error reply is taken, its payload is refused, given back late or left behind, or its buffer is released |
| ZcopyRuns.AGetSucceeds | pkg/rdma/client/client.go:631-709 | a run without any flaw in which a GET succeeds exists, for every memory and every body that fits |
| ZcopyRuns.PutFromIdle | internal/s3rdmaserver/zcopy/service.go:358-386 | from any state with nothing under way a PUT of any size that the server takes, none included, is answered with success |
| ZcopyRuns.APutSucceeds | internal/s3rdmaserver/zcopy/service.go:358-386 | so a run without any flaw in which a PUT succeeds exists, for every memory, place, limit and size that is taken |
| ZcopyRuns.AGetIsRefused | internal/s3rdmaserver/zcopy/service.go:425-427 | a run without any flaw in which the GET of an object larger than its max ends with an error, for every such object |
| ZcopyRuns.EmptyObjectTearsStream | pkg/rdma/verbs_linux_cgo.go:1837-1839 | the same run with an empty object tears the stream |
| ZcopyRuns.HighOffsetLandsElsewhere | pkg/rdma/verbs_linux_cgo.go:2806-2812 | a GET at an offset of 2^32 or more, in memory that large, passes every check and is written where the offset cut to 32 bits points, if that is inside the region |
| ZcopyRuns.SuccessWithoutBytes | pkg/rdma/verbs_linux_cgo.go:2620-2623 | with shared memory of exactly 4 GiB or a multiple, a GET is reported as a success and no byte of its object is in the shared memory, in a run without any flaw |
| ZcopyRuns.RefusedPutAddsCredits | internal/s3rdmaserver/zcopy/service.go:377-379 | a refused PUT whose bytes have the form of an ack adds credits that nobody granted, and the connection goes on |
| ZcopyRuns.RefusedPutOverwritesBuffer | internal/s3rdmaserver/zcopy/service.go:377-379 | one whose bytes have the form of a GET makes the server write over a buffer that a caller still holds |
| ZcopyWire.LogLands | pkg/rdma/verbs_linux_cgo.go:1881-1979 | whatever the queue pair has moved of the requests of a stream of messages and payloads, a number of items have landed, each with its frame, and of the next one, if it is a payload, some first bytes |
| ZcopyWire.LandedReads | pkg/rdma/verbs_linux_cgo.go:2040-2073 | a landed frame is read as the encoded message, or as the view of memory at the payload's own offset and length |
| ZcopyWire.ConnectionCarriesItems | pkg/rdma/verbs_linux_cgo.go:1511-1598 | the same for a live connection that has posted a prefix of those requests |
| ZcopyWire.RunIsCarried | internal/s3rdmaserver/zcopy/service.go:214-237 | in every run from a usable start, what the server sends is what the transport takes as one item each, its payloads always and its messages if they are encoded as frames |
| ZcopyWire.SendItems | internal/s3rdmaserver/zcopy/service.go:193-237 | what sending the items on a fresh connection posts is the requests of all of them, or a prefix that holds at least those that succeeded; all succeed without a timeout and with no request refused |
| ZcopyWire.ChannelIsRefined | internal/s3rdmaserver/zcopy/service.go:193-237 | so from a fresh connection and a run alone: however far the queue pair has got, the client's memory and inbox are those of a number of landed items and part of the next one |
| ZcopyWire.LandingsDeliver | pkg/rdma/verbs_linux_cgo.go:1881-1953 | and the landing steps of the composed protocol do to registered shared memory what those items do |
| Pending.PendingTable.RegisterPending | pkg/rdma/client/client.go:285-291 | a fresh id with an empty open channel |
| Pending.PendingTable.RemovePending | pkg/rdma/client/client.go:293-297 | removes the entry and nothing else |
| Pending.PendingTable.Deliver | pkg/rdma/client/client.go:299-312 | a result goes to a registered id once, and its channel is closed; otherwise nothing changes |
| Pending.PendingTable.FailAllPending | pkg/rdma/client/client.go:271-279 | every entry gets an error and a closed channel, the table is empty, and no send blocks or meets a closed channel |
| Pending.OneResultPerCall | pkg/rdma/client/client.go:271-312 | over all interleavings of register, remove, deliver and fail-all: at most one result per channel, of its own id, no send blocks, none on a closed channel |
| Pending.OneResultPerCallFromStart | pkg/rdma/client/client.go:110-176 | the same for every run of a new client |
| Releases.ReleaseTable.RegisterRelease | pkg/rdma/client/client.go:604-613 | the token is not zero, not in the table, and no closure has ever run under it |
| Releases.ReleaseTable.Take | pkg/rdma/client/client.go:616-624 | the closure is claimed if it is still there; token zero never is |
| Releases.ReleaseTable.RunRemaining | pkg/rdma/client/client.go:719-727 | Close runs each closure still in the table once |
| Releases.ReleaseAtMostOnce | pkg/rdma/client/client.go:604-628 | over all interleavings of Release and Close no closure runs twice, and each registered before Close is run or claimed when Close lets go of the lock |
| Releases.ReleaseAtMostOnceFromStart | pkg/rdma/client/client.go:110-176 | the same for every run of a new client |
| Listener.ShutdownIsSafe | pkg/rdma/verbs_linux_cgo.go:2385-2479 | with any number of workers: no accept on a destroyed listener, no send on the closed channel, and each accepted connection in exactly one place |
| Listener.ShutdownIsSafeFromStart | pkg/rdma/verbs_linux_cgo.go:2385-2479 | the same for every run of a new listener |
| Listener.OpenLosesNothing | pkg/rdma/verbs_linux_cgo.go:2413-2470 | until Close begins no worker goes and every accepted connection is with a worker, in the channel or taken, over every run |
| Listener.DrainingMoves | pkg/rdma/verbs_linux_cgo.go:2472-2477 | once Close has begun every worker left has a step: none is stuck on a full channel |
| Listener.DrainingEnds | pkg/rdma/verbs_linux_cgo.go:2413-2479 | once Close has begun every step of a worker brings it nearer to its end, so Close's wait ends |
| Listener.LeftIffNotTaken | pkg/rdma/verbs_linux_cgo.go:2385-2400 | when Close has finished the channel holds as many connections as were put in and not taken out, so none is left if and only if the two counts are equal; those left are in nobody's hands |
| Listener.ClosedWithConnectionLeft | pkg/rdma/verbs_linux_cgo.go:2385-2400 | such a run, with one left |
| ObjectIds.SplitOfMake | internal/inmems3/store/store.go:232-242 | splitting an id gives back bucket and key if and only if the bucket is non-empty and NUL-free |
| ObjectIds.MakeOfSplit | internal/inmems3/store/store.go:232-242 | every id that splits is the join of its parts |
| ObjectIds.IdsApart | internal/inmems3/store/store.go:232-234 | for such buckets different objects have different ids |
| ObjectIds.IdsCollide | internal/inmems3/store/store.go:232-242 | outside the condition ids collide or do not split |
| StoreSpec.FifoPut | internal/inmems3/store/store.go:197-226 | a fifo put fails if and only if the body alone exceeds the limit; otherwise it evicts exactly the shortest prefix of the other objects that makes room, and is last |
| StoreSpec.RejectPut | internal/inmems3/store/store.go:197-199 | a reject put fails if and only if the object does not fit beside the others |
| StoreSpec.PutKeepsInvariants | internal/inmems3/store/store.go:96-131 | a successful put stores its object, once, within the limit, and adds nothing else |
| StoreSpec.FifoKeepsLongestSuffix | internal/inmems3/store/store.go:200-226 | after any puts of distinct names the fifo store holds exactly the longest suffix of the puts it could take that fits |
| StoreSpec.WithoutBucketExact | internal/inmems3/store/store.go:81-94 | deleting a bucket removes exactly its objects |
| StoreSpec.WithoutBucketConcat | internal/inmems3/store/store.go:81-94 | deleting a bucket keeps the order of the remaining objects |
| Store.HandleOfName | internal/inmems3/store/store.go:278-282 | an object's id is indexed exactly when it is stored, and its handle is that of its list element |
| Store.RemoveKeepsIndex | internal/inmems3/store/store.go:265-284 | removing keeps list and index in one-to-one correspondence |
| Store.InsertKeepsList | internal/inmems3/store/store.go:286-299 | inserting an object of such a name puts its id, which was not there, at the back of the list |
| Store.PushKeepsIndex | internal/inmems3/store/store.go:286-299 | inserting keeps list and index each other's, whatever the id |
| Store.MemoryStore.constructor | internal/inmems3/store/store.go:56-64 | an empty store |
| Store.MemoryStore.CreateBucket | internal/inmems3/store/store.go:66-72 | adds a name and no object |
| Store.MemoryStore.GetObject | internal/inmems3/store/store.go:133-142 | finds exactly what is stored |
| Store.MemoryStore.RemoveObjectLocked | internal/inmems3/store/store.go:265-284 | removes exactly that object from maps, counter, list and index |
| Store.MemoryStore.InsertObjectLocked | internal/inmems3/store/store.go:286-299 | adds the object at the back of the contents, whatever its name; the list stays that of the objects exactly for names that ids can carry |
| Store.MemoryStore.DeleteObject | internal/inmems3/store/store.go:144-148 | removes exactly that object, and says whether it was there |
| Store.MemoryStore.LookupObjectByIdLocked | internal/inmems3/store/store.go:244-255 | an id of the list leads to its object's body, when the list is that of the objects |
| Store.MemoryStore.EvictObjectByIdLocked | internal/inmems3/store/store.go:257-263 | evicts exactly the object that the id leads to, if any |
| Store.MemoryStore.ChooseVictims | internal/inmems3/store/store.go:205-216 | chooses ids of stored objects, each once and never the current one, that free enough if and only if all the list leads to is enough; when the list is that of the objects, the shortest prefix, skipping the key being overwritten |
| Store.MemoryStore.EnsureCapacityLocked | internal/inmems3/store/store.go:183-230 | makes room if and only if there is no limit, it fits, or under fifo the list leads to enough that can go; fails and changes nothing otherwise; when the list is that of the objects it evicts exactly the shortest prefix of the others |
| Store.MemoryStore.PutObject | internal/inmems3/store/store.go:96-131 | for every name: fails exactly if no room can be made, and then only the bucket may be new; else stores the object once, within the limit, and adds nothing else; refines the put on the abstract list whenever the list is that of the objects or is not looked at, which stays so exactly if ids can carry the name |
| Store.NameThatCannotGo | internal/inmems3/store/store.go:205-223 | a fifo store that refuses a put because the object in its way has an empty bucket name and is never evicted |
| Store.MemoryStore.DeleteBucket | internal/inmems3/store/store.go:81-94 | removes the name and exactly its objects |
| Store.MemoryStore.ListBuckets | internal/inmems3/store/store.go:172-181 | every name once |
| Loader.LoadReplacesBucket | internal/inmems3/payload/loader.go:82-90 | without a limit a load puts every file, in order, after what is there |
| Loader.LoadRejects | internal/inmems3/payload/loader.go:82-90 | in a bounded reject store a load succeeds exactly when everything fits together, and otherwise has put a prefix |
| Loader.LoadEvicts | internal/inmems3/payload/loader.go:82-90 | in a bounded fifo store what remains is the longest suffix that fits of what was there followed by the files |
| Loader.FifoKeepsBucketIff | internal/inmems3/payload/loader.go:61-95 | loading a directory there reports success if and only if each file fits alone, and then its bucket holds all of them if and only if they fit together |
| Loader.LoadLosesFile | internal/inmems3/payload/loader.go:82-90 | a load that reports success and has lost its first file |
| Loader.AddFolderEvicts | internal/inmems3/payload/loader.go:41-99 | several directories with new names in a bounded fifo store leave the longest suffix that fits of everything put |
| Loader.AddFolderKeepsAllIff | internal/inmems3/payload/loader.go:41-99 | so nothing is lost if and only if all of it fits together |
| Loader.AddFolderRejects | internal/inmems3/payload/loader.go:41-99 | several directories with new names in a bounded reject store load if and only if everything fits together |
| Loader.TooLargeStopsLoad | internal/inmems3/payload/loader.go:83-86 | in a bounded fifo store a file that does not fit alone stops the load |
| Loader.AddFolderReplaces | internal/inmems3/payload/loader.go:61-95 | without a limit each bucket then holds exactly the files of the last directory of its name, and other buckets are as they were |
| Loader.PayloadLoader.PutFolderFiles | internal/inmems3/payload/loader.go:83-89 | puts files until one is refused, and counts them and their bytes |
| Loader.PayloadLoader.AddFolder | internal/inmems3/payload/loader.go:41-99 | the loop over directory entries, with cancellation and both kinds of error: what it stores, reports and returns is what LoadStops is about, and unless a file is refused the buckets new to the store are the reported ones |
| Loader.LoadStops | internal/inmems3/payload/loader.go:61-97 | for all entries, starting counts, limits, policies and moments of cancellation: what a load that ends well, is cancelled, cannot read a directory or is refused a file has stored, and that it reports as many objects as it put, the sum of their sizes, and the trimmed names of the directories gone in whole, in order and by number |
| Loader.LoadSucceedsIff | internal/inmems3/payload/loader.go:61-97 | a load ends well if and only if it is not cancelled before the last entry, every directory can be read and the store takes every file |
| Loader.PayloadLoader.ClearAll | internal/inmems3/payload/loader.go:105-114 | no bucket and no object is left, and the count is the number of buckets |

## Left out

- Error completions on the send queue: polling the model's queue never finds one, so that a cleanup waits until everything is sent is not promised for a queue pair that fails.
- The errno of a refused ibv_post_send is EIO; in the source it may be one of the two values that make SendMessage fall back to SEND after part of a WRITE.
- strings.TrimSpace of white space outside ASCII.
- libibverbs and librdmacm, connection setup, memory registration and CQ polling in real time: an abstract in-order queue pair; a timeout is a step that may always be taken.
- The checks for nil pointers, closed connections and missing setup at the head of each C function: the model starts from a connection that is set up and open.
- JSON encoding of control messages: the message datatype is used directly, a control message fits one frame and never looks like a notify frame. What the decoder makes of the bytes of a payload is an arbitrary function.
- Messages that a payload is decoded to have one of the known forms or an unknown op with an id. Obeying a GET whose id a goroutine still has replaces that goroutine in the table; the source would run both.
- The server's own region, in which the payload of a PUT lands before it is read: a payload misread there is decoded from the bytes that were sent. The same holds for the buffer that the client's transport registers when the length of the shared memory is a multiple of 2^32.
- The outer retry loop of RecvBorrowedMessage on a poll timeout: the model makes one round, and the caller may repeat it.
- A failing payload write in the composed protocol writes no bytes of it; in the transport it may have written a prefix of its own range (Transport.WriteAtStaysInside). The statements about memory are for runs in which no such write fails.
- The payload of a PUT on the server: the source receives and discards it, and so does the model; the store that GETs read from may change arbitrarily between lookups.
- The composed protocol is a step system on values, not on client and server objects: locks are the grain of the steps, and its maps and queues are not updated in place.
- After Close the loops of the composed model may go on or stop at any point; the order in which the send loop answers queued requests with an error is not modelled.
- Request ids, release tokens and byte counts are unbounded: the 64-bit counters of the source are taken not to wrap.
- Object ETags and modification times, prefix listing, and the sorting of names and listings.
- Waiting times of the accept workers, their logging, and the contents of accepted connections.
- computeSafeCredits and option defaults: their results are parameters.
- HTTP, XML, gRPC, command-line tools, benchmarks and file-system walking: plumbing around the parts above.
- ZcopyCredits.WaiterNotStuck: says nothing once the client is closed, because its send loop then returns with acks left in the queue; a payload waiting in a result channel counts as in the client's hands.
