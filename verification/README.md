# Pistache, modelled and proved in Dafny

Pistache is a C++ HTTP library. These files model the parts of it whose correctness is hardest to see by
reading, and prove what they promise, with `dafny verify dfyconfig.toml`.

- **Queues** (`Mpmc*.dfy`, `Mpsc*.dfy`). The two lock-free queues and the eventfd wake-up are interleaved
  machines whose steps are single atomic accesses. The results hold for any number of threads and any
  schedule: exclusive cells, refinement to a first-in first-out queue, no lost wake-up and no idle one
  (`MpscDrain.dfy`). `MpmcQueue.dfy` and `MpscQueue.dfy` hold the same algorithms as classes, seen by a caller with no other call in flight.
- **Promises** (`Promise*.dfy`, `WhenAll*.dfy`). A mutable graph of cores and continuations, changed by
  recursive propagation. After every `then`, `resolve` and `reject`, every core is in the state that the graph
  and its settled roots denote. A rank on cores says that nothing waits for itself; it is a witness only.
- **HTTP parser and chunked writer** (`Http*.dfy`, `RequestParser.dfy`). The parser with its cursor, its reverts
  and its body counters is proved against a specification, and the specification to be independent of packet
  boundaries, with the exact exception. `HttpPrint.dfy` prints any request and says what the message holds once it
  is read back; `HttpSize.dfy` says which chunk sizes are understood. `HttpChunkedWriter.dfy` is the other
  direction: what a response stream writes is what the chunk machine reads. `HttpSession.dfy`, `HttpConnection.dfy` and `HttpStale.dfy` follow a
  connection over several requests: what one request leaves for the next.
- **Event registry and counter** (`EventRegistry.dfy`, `EventCounter.dfy`, `EventMask.dfy`). The interest and ready sets, the
  back pointers and the lock that is kept across a hand-over; the bounded counter behind an eventfd.
- **Client pool** (`Client*.dfy`). Connections taken by compare-and-swap, one slot
  each, and overflow queues, as an interleaved machine. `ClientTheorems.dfy` has what every step keeps,
  `ClientHistory.dfy`, `ClientRuns.dfy` and `ClientQueues.dfy` what every run has done by the time it gets somewhere,
  `ClientLone.dfy` what one thread achieves on its own, and `ClientStranded.dfy` when a request can be left behind.
- **Base 64** (`Base64*.dfy`). Both loops, both round trips, and the text that RFC 4648 asks for.

Header, cookie and URL tables that live in other files are parameters (`HttpScan.Rules`). Sockets, timers, clocks
and libevent appear as the answers they give. Callbacks are total functions on integers.

## What the proofs found

- A packet boundary between the CR and the LF behind a chunk's data takes the CR for data. With the next packet the
  cursor advances by 2^64-1, which empties the buffer one step at a time, and the request fails
  (src/common/http.cc:500-512). No other boundary makes a difference to the request it is in.
- A chunked request is handled when the last size line has come, and the parser is reset
  (src/common/http.cc:1340-1351). If the CR LF behind that line comes in a later packet it is fed to the next request,
  whose method then reads `\r\nGET` and is unknown (src/common/http.cc:161-173): a good request is refused exactly if
  some packet with data starts behind the last size line of the request before it (whose chunks are not empty).
- An empty `write` on a response stream codes the last chunk, so a reader stops there
  (src/common/http.cc:764-771).
- `write` never asks whether the buffer had room, so a chunk that exceeds the limit is cut off and its full size
  returned (src/common/http.cc:764-771). `ends` raises only if the last chunk itself does not fit (808-820): after a
  flush the cut stream is sent to its end without an error, and its reader takes coding for data.
- `ParserBase::reset` leaves the body counters alone (src/common/http.cc:581-587). That matters exactly after a packet
  was refused for its size in the middle of a body. A byte count left over makes the next body come out shorter, or
  never end; a chunk left over takes size lines of the next chunked body for data.
- A counter event has no descriptor, and `EmEvent::ctl` makes no libevent event that asks for writing without one
  (src/common/eventmeth.cc:2938-2947). So a first registration for writing is refused, and a counter that comes to ask
  for writing later, by a change of mask, cannot be renewed (1705-1718). If it asks for reading too, its first read of
  a value throws and the value is lost; the write that fills it throws in any case; and either way the event has left
  its poller. An event that is no longer registered throws likewise when there is something to signal (1749-1755).
- Registering a counter event again, when the old mask asked for reading already, forgets a notification: under another
  mask one that was not dispatched yet, under any mask one that was not handed out yet
  (src/common/eventmeth.cc:1636-1657, 2970-3046). A later write above zero makes up for it only if it fills the counter
  of an event that asks for writing, and that write throws the event out of its poller.
- Although a draining thread takes connections without looking, it never takes one that has no transport yet
  (src/client/client.cc:1780-1803).
- A client can leave a request in a domain's queue beside an idle connection for as long as no other request of the
  client completes: `doRequest` finds the connections in use, the last one is released and the queues drained, and only
  then is the request queued (src/client/client.cc:1680-1701). Once every completion has been dealt with and short of a
  shutdown, no request waits beside an idle connection for another reason.
- The version text of a request line is compared over its own length, so `HTTP/1.`, `H` or nothing at all is taken for
  HTTP/1.0 (src/common/http.cc:236-270).

## Model

| member | source | states |
|---|---|---|
| `MpmcMachine.CellIsMask` | include/pistache/mailbox.h:566 | the slot `index & Mask` of a power-of-two ring is the remainder modulo its size |
| `MpmcMachine.CellWindow` | include/pistache/mailbox.h:566-568 | tickets less than one lap apart never share a slot, tickets one lap apart always do |
| `MpmcMachine.StepInv` | include/pistache/mailbox.h:500-553 | every atomic access of any thread, spurious compare-and-swap failures included, keeps the invariant that ties sequences, tickets, log and program counters together |
| `MpmcTheorems.ExclusiveCells` | include/pistache/mailbox.h:509-524 | in every run `dequeueIndex <= enqueueIndex <= dequeueIndex + Size`, and two threads between their compare-and-swap and their sequence store are never on the same cell |
| `MpmcTheorems.RunGrows` | include/pistache/mailbox.h:524-551 | over any run every cell's sequence only grows, accepted values keep their order, and a delivered value is final |
| `MpmcTheorems.StepRefines` | include/pistache/mailbox.h:500-553 | each atomic access is one step, or no step, of a bounded first-in first-out queue whose calls take effect at one instant |
| `MpmcTheorems.RunRefines` | include/pistache/mailbox.h:485-553 | every prefix of every run, from a new queue, maps to a run of that simple queue |
| `MpmcTheorems.QuietDelivery` | include/pistache/mailbox.h:523-551 | once no call is in flight, consumer ticket t has received exactly the t-th accepted value and the rest waits in order: nothing lost, duplicated or overwritten |
| `MpmcTheorems.RefusedEnqueue` | include/pistache/mailbox.h:516-517 | a refused `enqueue` saw the ticket of `Size` earlier not yet released |
| `MpmcTheorems.RefusedDequeue` | include/pistache/mailbox.h:543-544 | a refused `dequeue` saw the head ticket not handed out or not yet published |
| `MpmcTheorems.AloneEnqueue` | include/pistache/mailbox.h:500-526 | a whole `enqueue` with no other call in flight: refused after two accesses exactly when `Size` items are held, and otherwise, after five, it has appended its item |
| `MpmcTheorems.AloneDequeue` | include/pistache/mailbox.h:528-553 | a whole `dequeue` with no other call in flight: refused after two accesses exactly when nothing is held, and otherwise, after five, it has yielded and removed the oldest item |
| `MpmcQueue.Ring.constructor` | include/pistache/mailbox.h:485-497 | a new ring is valid and empty |
| `MpmcQueue.Ring.Enqueue` | include/pistache/mailbox.h:500-526 | for any stale first load and any number of spurious failures: succeeds exactly when there is room, and then appends |
| `MpmcQueue.Ring.Dequeue` | include/pistache/mailbox.h:528-553 | for any stale first load and any number of spurious failures: succeeds exactly when something is held, and then yields and removes the oldest item |
| `MpscMachine.StepInv` | include/pistache/mailbox.h:242-281 | every access of any producer or of the consumer keeps the invariant on links, places in the exchange order, moved values and the eventfd counter |
| `MpscTheorems.PopsInOrder` | include/pistache/mailbox.h:242-264 | values come out in the order of the `head.exchange` calls, each once, and what was popped stays popped |
| `MpscTheorems.NullPop` | include/pistache/mailbox.h:251-264 | `pop` yields null exactly when the queue is empty or the next producer has exchanged but not linked |
| `MpscTheorems.NoTouchAfterHandOut` | include/pistache/mailbox.h:247-261 | a node that was handed to the consumer is never written by a producer again, and no freed node is touched |
| `MpscTheorems.NoLostWakeup` | include/pistache/mailbox.h:352-434 | with a consumer that drains until null: while it sleeps, an item linked behind `tail` has its signal up or its producer is about to write it; with nobody pushing, a non-empty queue has a positive counter |
| `MpscTheorems.RunGrows` | include/pistache/mailbox.h:242-281 | over any run the exchange order, the pushed and the popped values only grow |
| `MpscTheorems.StepRefines` | include/pistache/mailbox.h:242-264 | seen as a sequence, only a `head.exchange` appends and only a `pop` that finds its link removes the oldest value |
| `MpscDrain.CounterIsUnread` | include/pistache/mailbox.h:352-416 | in every run the eventfd holds exactly the signals written since the consumer last read it with success, up to its bound |
| `MpscDrain.LoneDrain` | include/pistache/mailbox.h:364-434 | a drain with nobody pushing pops everything that was pushed and sleeps again, a bound queue with its eventfd at zero, so the poller is not called for nothing |
| `MpscQueue.Queue.Push` | include/pistache/mailbox.h:242-249 | on real linked nodes: appends one value and moves no other |
| `MpscQueue.Queue.Pop` | include/pistache/mailbox.h:251-264 | hands out the old sentinel with the oldest value moved into it, drops it from the chain, and returns null exactly on an empty queue |
| `MpscQueue.Queue.PopSafe` | include/pistache/mailbox.h:268-281 | yields and removes the oldest value, or nothing |
| `MpscQueue.Queue.EmptyIsEmpty` | include/pistache/mailbox.h:266 | with no push in flight, `head == tail` says exactly that nothing is held |
| `HttpMessage.Idempotent` | src/common/http.cc:359-383 | applying a step's message effects a second time changes nothing (stores keep the first entry, cookies are wiped and refilled) |
| `HttpMessage.Replay` | src/common/http.cc:155-397 | replaying a step after an attempt that ran short ends in the same message as running it once |
| `HttpScan.RequestLineExtend` | src/common/http.cc:155-270 | more bytes never change a settled request line, and only add effects to one that asked for more |
| `HttpScan.HeadersExtend` | src/common/http.cc:325-397 | the same for the header block |
| `HttpBody.ByLengthResumes` | src/common/http.cc:416-461 | a Content-Length body that stops anywhere and goes on, with its 64-bit counter, ends as if read at once |
| `HttpBody.ChunksResume` | src/common/http.cc:463-552 | a chunked body that stops anywhere but between a chunk's closing CR and LF ends as if read at once |
| `HttpBody.TornFate` | src/common/http.cc:500-512 | a parser stopped between that CR and LF waits for data, and its first byte makes `append` fail |
| `HttpParserSpec.ParseResumes` | src/common/http.cc:559-579 | parsing what is there and going on with more bytes is parsing all of it at once, unless the stop tore a chunk's closing CR LF |
| `HttpPackets.PacketIndependence` | src/common/http.cc:559-579 | from a new parser, any cutting of a request into packets gives the outcome, message and position of the whole, if and only if no packet with data starts between the CR and LF that close a chunk's data |
| `HttpPackets.UncutRun` | src/common/http.cc:559-579 | the same from any untorn parser state, when no packet cuts |
| `HttpPackets.CutRun` | src/common/http.cc:500-512 | with a cut the run always ends in the append error |
| `HttpPackets.NeverOverflows` | src/common/http.cc:500-512 | fed whole, no request ends in the append error |
| `HttpHead.BehindHead` | src/common/http.cc:559-574 | behind a complete head the body step takes over, with whatever the body counters hold |
| `HttpHead.ShortHead` | src/common/http.cc:559-574 | an incomplete head asks for more and leaves the body counters alone |
| `HttpHead.OneHeaderHead` | src/common/http.cc:325-397 | a concrete request line and one registered header are a complete head, with the message they leave |
| `HttpHead.ChunkedHead` | src/common/http.cc:404-412 | a real head that announces chunks |
| `HttpHead.LengthHead` | src/common/http.cc:404-412 | a real head that announces a length |
| `HttpPrint.PrintedRequest` | src/common/http.cc:155-397 | print and parse: any request of a known method with any resource, query, version text and header lines that the grammar allows comes back in the message as written, with, for each query parameter, header name in lower case, typed header and cookie, the first entry written; and what the outcome is with no byte of the body there |
| `HttpPrint.FirstOfIsOne` | src/common/http.cc:209-227 | a store is determined by the entries written: its keys are theirs, and each has the value that it first came with |
| `HttpPrint.PrintedRefused` | src/common/http.cc:359-383 | a printed request with a version is refused for a bad header exactly if some header line is one that its own parser refuses |
| `HttpPrint.PrintedBadVersion` | src/common/http.cc:236-270 | and for its version exactly if the version text is neither a beginning of a version literal nor all of it and a zero |
| `HttpPrint.PrintedUnknownVerb` | src/common/http.cc:161-173 | and for its method when the table lacks it, with nothing stored |
| `HttpPrint.VersionReads` | src/common/http.cc:236-270 | which version a version text stands for: `strncmp` over the length of the text accepts any beginning of `HTTP/1.0` or `HTTP/1.1`, the empty one included |
| `HttpPrint.BothLengths` | src/common/http.cc:399-413 | a printed request is refused for two announced lengths exactly if some line is a Content-Length and some line a Transfer-Encoding, in any case |
| `HttpSize.SizeIff` | src/common/http.cc:463-489 | a chunk-size line is understood as n exactly if it starts with n in base 16, digits of a literal table in either case, leading zeros allowed, n below 2^64, and then ends or goes on with a carriage return |
| `HttpSize.CapitalSize` | src/common/http.cc:463-489 | for instance `0aF`, and `0AF` with a carriage return behind it, are 175 |
| `HttpSize.SizeLineBad` | src/common/http.cc:463-489 | any other size line is refused by the chunk loop |
| `HttpSize.SizeLineGood` | src/common/http.cc:489-512 | and one that says n ends the body, is refused as too large to reserve, or has n bytes awaited |
| `HttpSize.HexSpells` | src/common/http.cc:767 | the writer's sizes are spelt with the small digits of the table and no leading zero |
| `HttpChunkedWriter.ResponseStream.constructor` | src/common/http.cc:721-753 | a new stream holds the response head, or as much of it as the buffer limit allows |
| `HttpChunkedWriter.ResponseStream.Write` | src/common/http.cc:764-771 | one more chunk in the stream, or as much of it as the buffer limit leaves room for; the size is returned either way, and the stream is whole exactly if it was and the chunk fits |
| `HttpChunkedWriter.ResponseStream.Insert` | include/pistache/stream.h:181-210 | an insertion writes what the limit leaves room for, fails when that is not all, and does nothing on a stream that has failed |
| `HttpChunkedWriter.ResponseStream.Flush` | src/common/http.cc:783-806 | the buffered bytes leave as one packet, nothing lost or repeated |
| `HttpChunkedWriter.ResponseStream.Ends` | src/common/http.cc:808-820 | raises, and sends nothing, exactly when the last chunk does not fit; if it does not raise, the packets sent concatenate to head, coded chunks and last chunk if and only if no write was cut off |
| `HttpChunkedWriter.CutSilently` | src/common/http.cc:764-771 | a concrete stream that cuts a chunk off, flushes, and ends without an error |
| `HttpChunkedWriter.CutReads` | src/common/http.cc:463-552 | the reader of that stream takes the last chunk for data and waits for more |
| `HttpChunkedWriter.HexRoundTrip` | src/common/http.cc:767 | a printed chunk size is read back as the same number and has no leading zero |
| `HttpChunkedWriter.WrittenDecodes` | src/common/http.cc:463-552 | the chunk machine reads what was written and ended as the chunks up to the first empty one |
| `HttpChunkedWriter.ReadableIsAll` | src/common/http.cc:764-771 | that is everything written if and only if only empty writes follow an empty one |
| `HttpChunkedWriter.PrefixStops` | src/common/http.cc:463-552 | after any prefix of the coded chunks the chunk machine asks for more up to the last size line that is read, is done from there on, and is torn exactly in a gap |
| `HttpChunkedWriter.WireStops` | src/common/http.cc:559-574 | the same of the whole parser, behind any head that announces chunks |
| `HttpChunkedWriter.CutIsGap` | src/common/http.cc:500-515 | a packet boundary anywhere in the request tears the parser exactly when it lies behind the head, right behind the CR that closes a written chunk which is read |
| `HttpChunkedWriter.CutIsGapped` | src/common/http.cc:500-515 | so the parser is cut exactly when some packet with data starts in a gap, a statement about what was written and where packets start |
| `HttpChunkedWriter.ChunkedRoundTrip` | src/common/http.cc:463-552 | behind any head that announces chunks, the coded chunks over any packets come out as the chunks up to the first empty one if no packet with data starts in such a gap, and fail otherwise |
| `HttpChunkedWriter.NonEmptyRoundTrip` | src/common/http.cc:764-771 | with no empty chunk the body that comes out is everything that was written |
| `HttpChunkedWriter.GapFails` | src/common/http.cc:500-512 | two packets that meet in a gap fail, whatever the chunks |
| `HttpChunkedWriter.OneByteFails` | src/common/http.cc:500-512 | a concrete failing run: a chunked body of one byte, in two packets that meet before its line feed |
| `RequestParser.Parser.constructor` | src/common/http.cc:554-557 | a new parser is the fresh state of the specification |
| `RequestParser.Parser.FeedBytes` | include/pistache/stream.h:120-132 | appends the packet and keeps the read offset, or refuses it whole beyond the limit |
| `RequestParser.Parser.Advance` | src/common/stream.cc:170-181 | succeeds when that many bytes remain; a count that is negative as a signed number drains the buffer |
| `RequestParser.Parser.RequestLineStep` | src/common/http.cc:155-270 | the loops compute the scan of the specification; short or failing input puts the cursor back but keeps the effects |
| `RequestParser.Parser.HeadersStep` | src/common/http.cc:325-397 | the same for the header block, with both nested reverts |
| `RequestParser.Parser.StoreHeader` | src/common/http.cc:359-383 | one header line: cookies wiped and refilled, one cookie added, or a typed entry stored, and always the raw entry |
| `RequestParser.Parser.ParseContentLength` | src/common/http.cc:416-461 | reads what the counter says is missing, in 64-bit arithmetic |
| `RequestParser.Parser.ChunkParse` | src/common/http.cc:463-515 | one round of the chunk loop against the chunk specification, errors included |
| `RequestParser.Parser.ParseChunked` | src/common/http.cc:517-552 | the chunk loop, with the reset that every way out performs |
| `RequestParser.Parser.Parse` | src/common/http.cc:559-574 | steps run until one does not ask for the next, as the specification's parse |
| `RequestParser.Parser.OnInput` | src/common/http.cc:1296-1370 | one packet: silent, handled, refused or too large, and the parser state it leaves |
| `RequestParser.Parser.Reset` | src/common/http.cc:581-587 | leaves a fresh parser exactly when the body counters were clear, because it does not touch them |
| `HttpSession.SettlesClear` | src/common/http.cc:459-544 | a request that is handled or refused by a step leaves clear body counters; one that waits leaves counters in use only by the body being read |
| `HttpSession.ServeConcat` | src/common/http.cc:1296-1370 | serving packets one after the other composes |
| `HttpSession.AnswerFresh` | src/common/http.cc:1296-1370 | whatever answers a packet leaves a new parser, exactly unless the packet was refused for its size while a body counter was in use |
| `HttpSession.FreshUnlessStranded` | src/common/http.cc:1296-1370 | over any connection: every answer leaves a new parser if and only if no packet was refused for its size while a body counter was in use |
| `HttpConnection.WaitsLong` | src/common/http.cc:155-173 | text without a blank, in any packets, is waited with |
| `HttpConnection.ServeFrom` | src/common/http.cc:1296-1370 | a request that settles at some byte is handled with the packet that brings it, and what later packets bring is kept for the next request |
| `HttpConnection.TailStarts` | src/common/http.cc:1340-1351 | something is kept exactly when a packet with data starts behind that byte |
| `HttpConnection.FirstServed` | src/common/http.cc:1296-1370 | a chunked request of non-empty chunks, in any packets without a gap: silence, one answer with everything written, silence, and the parser that is left |
| `HttpConnection.Garbled` | src/common/http.cc:161-173 | with a rest of a line end in front, any request that would have been answered is refused for its method, or for its size |
| `HttpConnection.SecondRequest` | src/common/http.cc:1340-1351 | the request after a chunked one is served as on a new connection if and only if no packet with data starts behind the last size line of the first; if one does, it is refused |
| `HttpConnection.LateLineFeed` | src/common/http.cc:161-173 | a CR LF in its own packet, and the next request: silence, then an unknown method |
| `HttpConnection.GoodRequest` | src/common/http.cc:1296-1370 | a bare `GET` is handled on a new connection |
| `HttpConnection.LateLineFeedSession` | src/common/http.cc:1340-1351 | a concrete connection of three packets: a chunked request handled, its last CR LF, and that same good request refused for it |
| `HttpStale.StaleLength` | src/common/http.cc:416-461 | a Content-Length request on a parser that believes it has read some bytes already: handled with a shorter body, or waited for |
| `HttpStale.StaleLengthRun` | src/common/http.cc:1305-1313 | part of a body, a packet that is too large, and another request: its body comes out shorter by as much as the first had brought, or is waited for in vain |
| `HttpStale.BodyCutShort` | src/common/http.cc:1305-1313 | a concrete such connection |
| `HttpStale.LengthKeepsChunk` | src/common/http.cc:416-461 | a chunk that was left over does no harm to a Content-Length request, and stays |
| `HttpStale.StaleChunk` | src/common/http.cc:463-515 | a chunked request on a parser with a chunk left over: the missing bytes are taken from the front of its body, size lines included, two more are skipped, and the reader goes on there |
| `HttpStale.StaleChunkRun` | src/common/http.cc:1305-1313 | so it goes after part of a chunk and a packet that is too large |
| `HttpStale.ChunkLeftOver` | src/common/http.cc:1305-1313 | a concrete such connection, in which a well-formed chunked request is refused |
| `PromiseGraph.FireInv` | include/pistache/async.h:429-459 | a continuation that runs keeps the invariant of the whole graph |
| `PromiseGraph.FireBindInv` | include/pistache/async.h:646-664 | a continuation whose callback returned a promise leaves a chainer behind and keeps the invariant |
| `PromiseGraph.AttachInv` | include/pistache/async.h:1130-1160 | attaching to any graph keeps it |
| `PromiseDenotation.QuietDenotes` | include/pistache/async.h:429-459 | with no continuation owed, every core is in the state that the graph and its settled roots denote |
| `PromiseDenotation.ExactlyOnce` | include/pistache/async.h:328-359 | every continuation has run exactly once, on its source's final value or exception, or its source is pending and it has not run |
| `PromiseDenotation.RejectionSpreads` | include/pistache/async.h:338-359 | a rejection reaches everything below it, through `Throw` handlers and inner promises, with the same exception |
| `PromiseDenotation.NoCallbackBelow` | include/pistache/async.h:434-437 | below a rejected core no fulfilment callback has run |
| `PromiseDenotation.OrderIsIrrelevant` | include/pistache/async.h:1130-1160 | two histories agree on every core that they share, up to the numbering of cores: whatever was attached or settled first, and whatever else was attached |
| `PromiseDenotation.AttachesCommute` | include/pistache/async.h:1130-1160 | in particular two attachments commute, with the two new cores exchanged |
| `PromiseDenotation.VoidStaysPending` | include/pistache/async.h:514-544 | a callback that returns nothing leaves its derived promise pending on fulfilment |
| `PromiseDenotation.PendingWaits` | include/pistache/async.h:1130-1160 | on the graph itself: while its source is pending a derived promise is pending |
| `PromiseDenotation.MapApplies` | include/pistache/async.h:429-459 | on the graph itself: once its source is fulfilled, a promise derived with a value-returning callback holds what the callback made of the value |
| `PromiseDenotation.BindFollows` | include/pistache/async.h:514-544 | on the graph itself: one derived with a promise-returning callback is in the state of the promise that the callback returned |
| `PromiseDenotation.RejectionTaken` | include/pistache/async.h:338-359 | on the graph itself: a rejection is rethrown into the derived promise, or leaves it pending if the handler returns, whatever the callback |
| `PromiseRuntime.Runtime.MakePromise` | include/pistache/async.h:1077-1084 | a new pending root, with a value or without, changes no other core |
| `PromiseRuntime.Runtime.Then` | include/pistache/async.h:1130-1160 | fires at once on a settled source, lists the continuation, and leaves every core in its denoted state |
| `PromiseRuntime.Runtime.Settle` | include/pistache/async.h:853-944 | refuses, unchanged, a second settlement and a value for a promise without one or the reverse; otherwise the whole graph reaches its denoted states and nothing settled or fired before changes |
| `PromiseRuntime.Runtime.Notify` | include/pistache/async.h:876-880 | the loop over the requests of a settled core pays every continuation attached to it and makes no new debt; it terminates on every acyclic graph |
| `PromiseRuntime.Runtime.ContResolve` | include/pistache/async.h:328-336 | a guarded run on a value: this continuation is paid, and nothing else is owed that was not |
| `PromiseRuntime.Runtime.ContReject` | include/pistache/async.h:338-359 | the same on an exception, rethrown into the chain or swallowed |
| `PromiseRuntime.Runtime.ThenChainer` | include/pistache/async.h:646-664 | waits for the inner promise, or takes its state at once |
| `PromiseRuntime.Doubled` | include/pistache/async.h:429-459 | on a new runtime: a promise resolved with 5 and a callback that doubles end in a derived promise of 10 |
| `PromiseRuntime.Followed` | include/pistache/async.h:646-664 | on a new runtime: a callback that returns another promise, and the derived promise takes that one's rejection |
| `WhenAllRange.WhenAll.OnValue` | include/pistache/async.h:1613-1626 | never settles twice; fulfils with every input's value at its index exactly when the last one arrives unrejected |
| `WhenAllRange.WhenAll.OnError` | include/pistache/async.h:1541-1549 | never settles twice; the first rejection decides |
| `WhenAllRange.WhenAll.AttachAll` | include/pistache/async.h:1528-1552 | attaching to inputs in any mixture of states records each settled one once |
| `WhenAllRange.AllThere` | include/pistache/async.h:1621-1625 | as many distinct answers as inputs means that every input has answered |
| `WhenAllRange.OneVerdict` | include/pistache/async.h:1520-1630 | a history leaves room for one verdict only: fulfilled, rejected by the first rejection, or pending |
| `WhenAllRange.OrderFree` | include/pistache/async.h:1613-1626 | without a rejection the order of the answers does not matter |
| `WhenAllGraph.GraphHistory` | include/pistache/async.h:1528-1552 | attached to the promises of a graph, the record is told every input at most once, so each of its calls finds its input missing |
| `WhenAllGraph.Reported` | include/pistache/async.h:1613-1626 | and an input is reported exactly as the state that the graph denotes |
| `WhenAllGraph.GraphVerdict` | include/pistache/async.h:1520-1553 | so the promise that `whenAll` returns is what the graph makes of its inputs: all values in order, one of the rejections, or pending |
| `WhenAllRuntime.Gathering.constructor` | include/pistache/async.h:1528-1552 | run on a promise runtime: watches every input, and the promise it returns is what the graph makes of them |
| `WhenAllRuntime.Gathering.Watch` | include/pistache/async.h:1536-1549 | attaches to the next input, which reports at once if it is settled |
| `WhenAllRuntime.Gathering.Report` | include/pistache/async.h:1613-1626 | one report keeps record, returned promise and graph in step, and settles the returned promise when the record says so |
| `WhenAllRuntime.Gathering.SettleRoot` | include/pistache/async.h:853-944 | whichever root is settled, in any order: all values packed if every input is fulfilled, a rejection of one if there is one, pending otherwise |
| `WhenAllRuntime.Gathering.AttachTo` | include/pistache/async.h:1130-1160 | the same after any attachment, also to the returned promise |
| `Base64.DecodeEncode` | src/common/base64.cc:76-125 | decoding undoes encoding for every byte vector, and every encoding is canonical |
| `Base64.EncodedLength` | src/common/base64.cc:158-164 | four characters for every started group of three octets |
| `Base64.EncodeDecode` | src/common/base64.cc:167-245 | whatever decodes comes back from its octets exactly when it is canonical (sections 3.5 and 4 of RFC 4648) |
| `Base64.SextetRoundTrip` | src/common/base64.cc:248-273 | every sextet has a character that decodes to it and is not the pad |
| `Base64.CharacterRoundTrip` | src/common/base64.cc:129-154 | every decodable character encodes back to itself |
| `Base64Text.AlphabetEncodes` | src/common/base64.cc:248-273 | every sextet is written with its character of Table 1 of RFC 4648, given as a literal |
| `Base64Text.AlphabetDecodes` | src/common/base64.cc:129-154 | exactly the characters of that table can be decoded, each to its position |
| `Base64Text.EncodedText` | src/common/base64.cc:167-245 | the encoding of any octets, group by group: each three are one 24-bit number written in four six-bit digits of the table, and one or two left over are filled with zero bits and padded |
| `Base64Text.Vectors` | src/common/base64.cc:167-245 | test vectors of section 10 of RFC 4648 |
| `Base64Text.RefusedText` | src/common/base64.cc:25-45 | exactly which strings are refused, and as what |
| `Base64Text.DecodedPrefix` | src/common/base64.cc:76-125 | any other string is read up to its first character outside the table; whole octets give back the characters that they came from, and the bits that fill none are dropped |
| `Base64Coder.Encoder.CalculateEncodedSize` | src/common/base64.cc:158-164 | the mask arithmetic is four times the rounded-up third |
| `Base64Coder.Encoder.Encode` | src/common/base64.cc:167-245 | the index-stepping loop fills a buffer of exactly that size with the specified text |
| `Base64Coder.Decoder.CalculateDecodedSize` | src/common/base64.cc:25-73 | the size of the decoded data, or the error for a short or ragged string |
| `Base64Coder.Decoder.Decode` | src/common/base64.cc:76-125 | the loops stay in bounds, read only decodable characters, and produce the specified octets |
| `EventRegistry.Registry.NewPoller` | src/common/eventmeth.cc:3365-3389 | a new poller has no event, whatever stale back pointers name its address |
| `EventRegistry.Registry.NewEvent` | src/common/eventmeth.cc:2183-2213 | a new event is in no set and changes nobody's |
| `EventRegistry.Registry.Find` | src/common/eventmeth.cc:3282-3325 | the scan finds the only poller that has the event, meets a kept lock, or shows that no poller has it and none is kept |
| `EventRegistry.Registry.EventCtl` | src/common/eventmeth.cc:2841-3033 | the back pointer moves only when no other poller has or holds the event; owner, mask and libevent event of the record in every outcome |
| `EventRegistry.ReworkedFields` | src/common/eventmeth.cc:2923-3031 | the event record after a `ctl`, field by field: owner, mask and libevent event for each operation and each answer of libevent |
| `EventMask.Stored` | src/common/eventmeth.cc:2370-2376 | the stored mask has the same reading, writing and persistence bits, and no timeout bit |
| `EventRegistry.Registry.Ctl` | src/common/eventmeth.cc:4151-4290 | after success the event is in the interest set exactly if it was not removed, with the new mask; the sets and the record after each other outcome; an event in somebody's hands blocks the call |
| `EventRegistry.Registry.CtlFinish` | src/common/eventmeth.cc:4197-4286 | the second critical section alone keeps the invariant, whatever ran on other events since the first |
| `EventRegistry.Registry.HandleEventCallback` | src/common/eventmeth.cc:3586-3682 | an event that left the interest set since the scan is not touched, dead or alive |
| `EventRegistry.Registry.TakeReady` | src/common/eventmeth.cc:3958-4056 | exactly the ready events change hands, no other poller has any of them, bit 4 of its mask decides whether one stays in the interest set, and the interest mutex stays locked |
| `EventRegistry.Registry.Unlock` | src/common/eventmeth.cc:3694-3704 | releases what was handed out |
| `EventRegistry.Registry.CloseEvent` | src/common/eventmeth.cc:4293-4389 | never deletes an event that is in any set or in the hands of a caller of `getReadyEmEvents`; on one in hand it is blocked |
| `EventRegistry.Registry.CloseRegistered` | src/common/eventmeth.cc:4293-4372 | the part under the locks of the poller that has the event: the event leaves both sets, or the call is blocked while it is in hand |
| `EventRegistry.Registry.CloseAlone` | src/common/eventmeth.cc:4373-4388 | the part without a poller, after the locks are released: only an event that is in no set and in nobody's hands is deleted |
| `EventRegistry.Registry.DropLoopTimer` | src/common/eventmeth.cc:3821-3845 | the loop timer leaves both sets before it is destroyed, with the three results |
| `EventRegistry.Registry.DestroyPoller` | src/common/eventmeth.cc:3391-3435 | the poller's events forget it, and no set keeps one |
| `EventCounter.Balance` | src/common/eventmeth.cc:1387-1525 | over any run of reads and writes, initial value plus accepted writes equals values read plus values lost plus the counter, which never exceeds 2^64-2; without the loss the balance holds exactly when no read raised on a counter above zero |
| `EventCounter.LosingRead` | src/common/eventmeth.cc:1387-1427 | a run of a counter that comes to ask for writing too: its first read raises, the value is lost, and it cannot be registered under that mask again |
| `EventCounter.RaisingWrite` | src/common/eventmeth.cc:1469-1476 | a run in which the write that fills the counter is accepted, raises, and takes the event out of its poller |
| `EventCounter.MutedByMask` | src/common/eventmeth.cc:1614-1661 | a run that ends with a registered, readable event of which no poller is ever told, whatever is written on top: a new mask before the dispatch |
| `EventCounter.MutedByRepeat` | src/common/eventmeth.cc:3036-3046 | another: the same mask again between dispatch and poll, so that the poller is handed the event without its flags |
| `EventCounter.Counter.Read` | src/common/eventmeth.cc:1387-1427 | one step of that ledger that yields the whole counter and discards what was notified; raises, and loses the value, exactly on an event that asks for reading and writing and is registered or no timer |
| `EventCounter.Counter.Write` | src/common/eventmeth.cc:1429-1525 | one step of that ledger, refused exactly when the counter would pass 2^64-2; a rise from zero makes a reader active; and it makes up for a missing notification only by filling the counter, which ends the registration |
| `EventCounter.Counter.Reset` | src/common/eventmeth.cc:1337-1385 | zeroes the counter and leaves no stale activation |
| `EventCounter.Counter.RenewEv` | src/common/eventmeth.cc:1669-1761 | a registered event is made anew exactly if it does not ask for writing, and is active for what the counter allows; otherwise it raises and has left its poller; an unregistered one raises exactly when there is something to signal |
| `EventCounter.Counter.Dispatch` | src/common/eventmeth.cc:3586-3682 | what was active becomes ready flags if a poller has the event, and no poller is told more or less for it |
| `EventCounter.Counter.Collect` | src/common/eventmeth.cc:3958-4056 | the poller is handed exactly the ready flags, and a one-shot event leaves it |
| `EventCounter.Counter.Unregister` | src/common/eventmeth.cc:3079-3083 | a deregistration forgets whatever was notified |
| `EventCounter.Counter.Register` | src/common/eventmeth.cc:2923-3046 | refused exactly for a first libevent event that asks for writing; otherwise an interested poller has been or will be told of a non-zero counter, exactly unless the old mask asked for reading too, the notification is not active under the same mask, no poller has been handed it, and writing is not newly possible |
| `EventCounter.NoStale` | src/common/eventmeth.cc:1337-1385 | what the event loop or a poller has in store is true of the counter and the mask, whatever has been called |
| `ClientTheorems.StepInv` | src/client/client.cc:1097-1336 | every step of any thread keeps the invariant on connections, threads, requests, queues and settlements |
| `ClientTheorems.ReadyStep` | src/client/client.cc:1704-1717 | and keeps that a domain gets a queue only after all its connections have been in use |
| `ClientTheorems.NeverCrashes` | src/client/client.cc:1780-1803 | `performImpl` never meets a connection without a transport, although only `doRequest` gives one |
| `ClientTheorems.AtMostOne` | src/client/client.cc:1097-1107 | an idle connection holds no request, a used one at most one across `requestsQueue` and `requestEntry` |
| `ClientTheorems.ExclusiveUse` | src/client/client.cc:1298-1336 | a connection is with one thread at a time, whoever writes a `requestEntry` finds it empty, and a request is performed on a connection of its own domain |
| `ClientTheorems.OnePlace` | src/client/client.cc:1665-1806 | every submitted request is in exactly one place: a thread's hand, its domain's queue, a connection's queue or slot, or settled |
| `ClientTheorems.NoDuplicates` | src/client/client.cc:1691-1698 | queues and settlements have no repetitions, and queues keep to their capacity |
| `ClientTheorems.Final` | src/client/client.cc:1183-1269 | what is settled stays settled in the same way, and no request is forgotten |
| `ClientHistory.TransportUsed` | src/client/client.cc:1704-1717 | in every run, a connection that has a transport has been in use |
| `ClientHistory.TurnedAway` | src/client/client.cc:1691-1698 | in every run, a request has been rejected for a full queue if and only if some step found it at its domain's queue with 2048 items held; and by then every connection of that domain had been in use |
| `ClientRuns.LeftDrained` | src/client/client.cc:1780-1803 | in every run, a draining thread leaves a domain only for the next one, and only with the domain's queue empty or every connection of the domain found in use in the scan just ended |
| `ClientRuns.NoneIdle` | src/client/client.cc:1345-1377 | in every run, a request that is about to be queued had found each connection of its domain in use |
| `ClientQueues.FirstInFirstOut` | src/client/client.cc:1691-1698 | in every run, what entered a domain's queue is what left it followed by what it holds, in order |
| `ClientQueues.TakenToSlot` | src/client/client.cc:1791-1801 | whoever takes a request out holds a connection of that domain, and with its next move puts the request, the oldest, into that connection's slot |
| `ClientQueues.ConnDrained` | src/client/client.cc:1323-1336 | a thread leaves a connection's own queue only when it is empty, takes its oldest request, and puts that into the connection's slot next |
| `ClientQueues.SettledAsArrived` | src/client/client.cc:1183-1269 | in every run, a request is settled with a response, a failure or a timeout if and only if that arrived for the connection whose slot held it |
| `ClientQueues.ConnectedAsReported` | src/client/client.cc:1109-1163 | a connection counts as connected exactly if the last report of it said so |
| `ClientQueues.StoppedByShutdown` | src/client/client.cc:1764-1777 | draining is off exactly from the first shutdown on |
| `ClientLone.PoolShape` | src/client/client.cc:1352-1366 | in every run each domain asked for has as many connections as configured, all of that domain and none in two places |
| `ClientLone.LoneDrain` | src/client/client.cc:1760-1806 | a drain with nobody else moving, from any reachable state (`ReachedFit`): in every domain the oldest requests go to the idle connections in pool order until either runs out, and nothing else changes |
| `ClientLone.LoneAnswer` | src/client/client.cc:1747-1755 | an answer with nobody else moving: the request is settled as answered, its connection is freed, and every domain is served as above |
| `ClientLone.LoneLink` | src/client/client.cc:1323-1336 | a connection set up with nobody else moving: the request that waited for it goes over it |
| `ClientLone.LoneRequest` | src/client/client.cc:1665-1758 | a request with nobody else moving: over the first idle connection of its domain, at once or when it is connected; else into the queue; else rejected for 2048 requests held |
| `ClientStranded.LeftBehind` | src/client/client.cc:1680-1701 | with every completion dealt with and no shutdown, a request in a domain's queue beside an idle connection entered the queue when that connection already stood idle, having found it in use before |
| `ClientStranded.Stranded` | src/client/client.cc:1680-1701 | a run of two threads that ends that way: both at rest, the connection idle, the request queued |

## Left out

- The client and the concurrent queues are transition systems on values, since what matters there is the interleaving of threads; as classes, the queues are modelled for one caller at a time.
- Weak memory orders: each atomic access is one step of a sequentially consistent machine, and indices do not wrap around.
- `MPMCQueue` move construction and assignment, which copy the enqueue index into the dequeue index.
- Reuse of the memory of freed queue nodes, so the ABA problem is not in question.
- Eventfd writes that fail, and an unbind while threads push.
- The response line, whose partial version text is an error, and pipelined requests: a packet that holds the end of one request and the start of the next loses the latter in the reset.
- `HttpBody.TornFate`: gives the end of a torn chunk, not the 2^64-1 steps of the cursor before it.
- `RequestParser.Parser.StoreHeader`: does not track what a cookie or header parser had stored before it threw; the request is refused and its message discarded.
- Chunk sizes and bodies beyond the size that a string can reserve end in one error (`ReserveRefused`), without the partial allocation.
- `PromiseRuntime.Runtime.Then`: asks that a callback which returns a value, attached to a promise without value, comes with no handler that swallows a rejection; there the source rejects what waits for a chain that is still pending, with an empty exception (include/pistache/async.h:486-495).
- `PromiseRuntime.Runtime.ContReject`: leaves out that a promise-returning callback on a promise without value goes over the source's own requests once more (include/pistache/async.h:692-699); each has its count, so only the order of their runs could change.
- Promises made by a callback while it runs are made beforehand here, or are fresh and settled; re-entrant `then` on a core whose requests are being notified works on the list as it was.
- Callbacks that throw, callbacks that move the value out, and locks between threads that use one promise.
- Variadic `whenAll` and `whenAny`; `whenAll` over void promises.
- `WhenAllRange.WhenAll.OnValue`: asks that its input has not answered yet, which `WhenAllGraph.GraphHistory` proves of every call that a graph makes.
- Base 64 strings with characters beyond one byte cannot occur in the source and decode to nothing here.
- `EventRegistry.Registry.Ctl`: composes the critical sections of one call without other threads between them; `EventCtl` and `CtlFinish` state what each keeps by itself, and two calls on the same event at once are not modelled.
- `EventRegistry.Registry.CloseEvent`: composes its two parts without other threads between them; `CloseRegistered` and `CloseAlone` state what each keeps by itself.
- Event loop failures, which leave the loop timer registered, and destroying a poller while it polls.
- Timer activation by `settime`, SSL events and everything libevent does beyond activate, add, delete and free.
- `EventCounter.Counter.Register`: leaves out what libevent itself may refuse, and that the poller's own check of an Add comes first (`EventRegistry.Registry.Ctl` has both); blocking mode is not modelled.
- `WhenAllRuntime.Gathering.Report`: comes right behind the propagation that settled the input, in any order, where the source calls it from inside; values are packed into one number.
- The client's send loop and connection set-up, which appear as events that may come at any time; a request whose connection attempt fails stays with its connection, as in the source.
- A send that fails in the thread that drains the queues, which would lock `queuesLock` twice.
- Fairness between the threads of a client: the laws about one thread on its own, and those about whole runs, say what a thread has done when it gets somewhere, not that it is scheduled.
- `RequestParser.Parser.Advance`: states where the cursor ends up, not that the loop behind it takes 2^64-1 rounds for a count of -1.
- Routing, cookies, MIME types, compression, files, dates, logging and the Windows shims.
