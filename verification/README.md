# edgeproxy, verified

A Dafny model of the dual proxy: the tunnel between the client proxy and the server proxy, the server's
prefetch scheduler, the client's cache and serving logic, and the client's handover prediction and path choice.
`dafny verify dfyconfig.toml` checks everything.

Objects that the program updates in place are classes; their methods are proved equal to functions on values,
and the theorems are about those functions, over all runs. What runs between two awaits is one step; everything
the program does not control (arriving bytes and their chunking, time, failures, predictions, the order of steps)
is an argument of the steps and quantified over. Safety theorems say what never happens; beside them stand theorems
that say what does: that bytes, replies, pushes and planned pages arrive, are read, handed over and pushed once nothing
is in the way.

| file | module | what it models |
|---|---|---|
| Prelude.dfy | Prelude | optional values, byte strings, big-endian integers |
| Protocol.dfy | Protocol | frames on the wire: encoding, decoding, reading a header as it arrives |
| QuicStream.dfy | QuicStreams | a pass-through stream's queue and the copy loop out of it |
| ServerDemux.dfy | ServerDemux | the server telling framed streams from CONNECT streams while bytes arrive |
| PassThrough.dfy | PassThrough | HTTPS pass-through from browser to site and back, end to end |
| Delivery.dfy | Delivery | the same: that everything gets through, and what a failure does |
| Waiters.dfy | Waiters | requests that wait for their replies |
| QuicClient.dfy | QuicCorrelation | the client's requests and pushes over QUIC streams |
| TcpFraming.dfy | TcpFraming | messages with ids over one TCP byte stream |
| TcpClient.dfy, TcpGuarantees.dfy | TcpCorrelation, TcpGuarantees | replies matched by id across TCP reconnects |
| TcpProgress.dfy | TcpProgress | that nothing which has arrived is left unread |
| Cache.dfy | PageCache | the byte-bounded LRU cache with expiry |
| CacheAccounting.dfy, CacheLedger.dfy | CacheAccounting, CacheLedger | conservation of pushed bytes, and each push counted once |
| CacheInclusion.dfy | CacheInclusion | exact eviction and LRU inclusion |
| LeastSquares.dfy | LeastSquares | the straight-line fit over the reals |
| HandoverPredictor.dfy | HandoverPrediction | the sliding window, the hint and its hysteresis |
| PathManager.dfy | PathManagement | health, switching and retried hints |
| PrefetchPolicy.dfy | Prefetching | limits and the greedy plan |
| PushScheduler.dfy, PushGuarantees.dfy | PushScheduling, PushGuarantees | cancellable push tasks of one client |
| PushHeld.dfy | PushHeld | when a page is pushed that the client has |
| PushHistory.dfy | PushHistory | when and for what the server plans, and what becomes of every page of a plan |
| OriginServer.dfy | Origin | entity tags and conditional responses |
| ClientProxy.dfy | ClientProxying | what the client proxy answers from, and its retries |
| Revalidation.dfy | Revalidation | both proxies, the cache and a changing origin together |
| Serving.dfy | Serving | what the reader is shown and what is kept, over their runs |

What is assumed, and where:

- JSON and deflate (`Protocol.LawfulCodec`): parsing undoes printing, inflating undoes deflating, and adding
  `"enc":"deflate"` to a compact header costs 16 bytes. The theorems hold for every codec with these laws.
- SHA-256 and HTTP dates (`Origin.LawfulLibrary`): a digest of 16 hexadecimal characters; parsing undoes formatting.
  That tags tell bodies apart is assumed only of the bodies that a page ever had in the run
  (`Revalidation.TagsIdentify`); a digest of 64 bits cannot do so for all bodies.
- QUIC streams are ordered and reliable until they are reset or the connection ends, and nothing arrives on a client's
  stream before it is opened (sections 2.1 and 2.2 of RFC 9000).
- Timers are ideal: a wait with a time-out ends by then, a sleep lasts what it says. Signal values, times and
  probabilities are real numbers.
- The tunnel's reported backlog is at least the unacknowledged push bytes (`PushGuarantees.HonestBacklog`). That is
  what the QUIC tunnel reports; the TCP tunnel reports only its write buffer, so the backlog bound is not claimed there.

Where the plain statement is false, the model says when it holds and when not:

- A CONNECT header that completes only in the final event loses what follows it (`ServerDemux.ConnectStreamRelayedOnce`);
  the client never sends such bytes (`PassThrough.NothingBehindTheHeaderTooEarly`).
- A reset or an abort can let a side see an end of stream with bytes missing (`PassThrough.ResetTruncates`); exactly when, for
  each direction, is `PassThrough.EndMeansEverythingUnlessCut`.
- A frame whose headers use `type` or `enc` does not survive the round trip (`Protocol.RoundTrip`).
- A reply that does not decode leaves its request waiting over QUIC (`QuicCorrelation.ReplyIsTheWholeStream`) and fails the
  whole connection over TCP. The server does send one, the empty reply after a failed handler
  (`QuicCorrelation.EmptyReplyLeavesWaiting`, `TcpGuarantees.BadReplyFailsEverybody`).
- One push larger than the backlog cap is let through when the backlog is empty (`PushGuarantees.OverTheCapExactlyWhen`).
- A page that the client has can be pushed: exactly if the reader's own request for it was answered between plan and push
  (`PushHeld.HeldWhenPushedExactlyWhen`, with a run in `PushHeld.RequestedMeanwhileIsStillPushed`). No page is pushed twice.
- A view that comes after the deadline leaves the old task in place (`PushGuarantees.ViewRestartsUnlessOffline`), but from
  then on it pushes nothing (`PushGuarantees.QuietUntilTheNextHint`).
- The outage plan extends the normal one for the uniform sizes that the server plans with
  (`Prefetching.OutagePlanExtendsNormal`); for known sizes exactly under the condition of
  `Prefetching.PlanIsExtendedExactlyWhen`, which `Prefetching.KnownSizesBreakThePrefix` shows can fail.
- A browser's own If-None-Match replaces the cache's, and can get it a wrong page
  (`Revalidation.OwnTagsAreSafeExactlyWhen`, with a run in `Revalidation.WrongPageIsServed`).
- Without a retry delay nothing bounds the number of tries (`ClientProxying.TriesAreBoundedExactlyWhen`).
- A page that was read keeps its reads when it is prefetched again, and is then not answered at once
  (`Revalidation.PrefetchedAgainIsReadyExactlyWhen`).

## Model

| member | source | states |
|---|---|---|
| Protocol.WireFrame.Encode | edgeproxy/common/protocol.py:53-64 | the first successful call decides the bytes, compression switch included; every later call returns the same bytes, so a frame costs what it was measured to cost |
| Protocol.RoundTrip | edgeproxy/common/protocol.py:53-78 | decoding an encoded frame gives the frame back, compressed or not, if and only if its headers use neither "type" nor "enc" |
| Protocol.CompressionIsInvisible | edgeproxy/common/protocol.py:53-78 | the receiver sees the same frame whether or not the sender compresses |
| Protocol.CompressedIsShorter | edgeproxy/common/protocol.py:56-61 | a frame that is sent compressed is strictly shorter than the same frame sent plain |
| Protocol.EncodedExactlyWhen | edgeproxy/common/protocol.py:62-64 | a frame can be encoded if and only if its header can be counted in four bytes |
| Protocol.CompressedExactlyWhen | edgeproxy/common/protocol.py:53-61 | the deflated body goes on the wire, and the header says so, if and only if the switch is on, the body has at least 1024 bytes and a tenth of them is saved |
| Protocol.WireLayout | edgeproxy/common/protocol.py:62-64 | length, header and body sit where a reader of the wire looks for them |
| Protocol.SplitHeadExtends | edgeproxy/common/protocol.py:81-91 | bytes behind a complete header change only the remainder that is returned |
| Protocol.SplitHeadIncremental | edgeproxy/common/protocol.py:81-91 | nothing on any strict prefix of an encoded header; on every continuation the same frame and exactly the remaining bytes |
| Protocol.SplitHeadAgreesWithDecode | edgeproxy/common/protocol.py:66-91 | reading the start of a stream and decoding all of it agree on type, headers and, uncompressed, on the body |
| Prelude.BigEndianRoundTrip | edgeproxy/common/protocol.py:63-72 | a number that fits its field is read back from its bytes |
| QuicStreams.FeedTotal | edgeproxy/tunnel/quic_tunnel.py:100-104 | data queued before the end mark reaches the reader in order, data behind it never |
| QuicStreams.ReadTotal | edgeproxy/tunnel/quic_tunnel.py:109-117 | a read loses no byte, and an empty one means that the end was reached and nothing is left |
| QuicStreams.UnreadTotal | edgeproxy/tunnel/quic_tunnel.py:106-107 | putting back the tail of what was read changes nothing for the next reader |
| QuicStreams.FailTotal | edgeproxy/tunnel/quic_tunnel.py:143-146 | a failed stream still gives its reader what had arrived, and then the end |
| QuicStreams.QuicStream.FeedChunk | edgeproxy/tunnel/quic_tunnel.py:100-104 | the queue grows by the data, if any, and the end mark |
| QuicStreams.QuicStream.Read | edgeproxy/tunnel/quic_tunnel.py:109-117 | bytes put back first, then the queue, then the end for ever |
| QuicStreams.QuicStream.PutBack | edgeproxy/tunnel/quic_tunnel.py:106-107 | the bytes are read again before everything else |
| QuicStreams.QuicStream.SendData | edgeproxy/tunnel/quic_tunnel.py:119-132 | nothing is sent on a closed stream or behind its end |
| QuicStreams.QuicStream.FailReads | edgeproxy/tunnel/quic_tunnel.py:143-146 | closes the stream and queues the end mark |
| QuicStreams.QuicStream.CopyOut | edgeproxy/tunnel/transport.py:46-51 | the copy loop hands over all that is pending, in order, and finishes exactly when the end mark was reached |
| ServerDemux.AlwaysExclusive | edgeproxy/tunnel/quic_tunnel.py:388-443 | no stream is ever both in the assembler and in relay |
| ServerDemux.FramedStreamDispatchedOnce | edgeproxy/tunnel/quic_tunnel.py:388-411 | for every split into chunks, a stream that decodes to anything but CONNECT is dispatched exactly once, as the decoding of all its bytes, and never relayed |
| ServerDemux.ConnectStreamRelayedOnce | edgeproxy/tunnel/quic_tunnel.py:388-443 | a CONNECT stream is opened exactly once, and its reader gets exactly the bytes behind the header if and only if the header was complete before the final event or nothing follows it |
| ServerDemux.ConnectStreamNeverReorders | edgeproxy/tunnel/quic_tunnel.py:420-443 | at any moment the bytes read are a prefix of those behind the header |
| ServerDemux.ConnectStreamIsReadThrough | edgeproxy/tunnel/quic_tunnel.py:109-117 | when a read changes nothing any more, the reader has all that arrived behind the header |
| ServerDemux.MalformedStreamIsDropped | edgeproxy/tunnel/quic_tunnel.py:399-404 | for every split into chunks, a stream that does not decode is noted as malformed, or raises, at its end; nothing is dispatched, opened or kept |
| ServerDemux.UndecidedAlways | edgeproxy/tunnel/quic_tunnel.py:420-432 | until its end such a stream, and any that is not CONNECT, starts nothing; it is remembered as framed exactly once its header is complete |
| ServerDemux.BadHeaderRaises | edgeproxy/tunnel/quic_tunnel.py:424-424 | a header that is complete but cannot be understood raises in every event that adds to its stream, which goes on being gathered |
| ServerDemux.WithoutHandlerRefuses | edgeproxy/tunnel/quic_tunnel.py:434-443 | over every run a server without a handler does the same with every stream, except that it answers 501 and ends the stream where it would have opened one, or raises where it cannot answer |
| ServerDemux.ServerProtocol.DataReceived | edgeproxy/tunnel/quic_tunnel.py:388-411 | the stream the event names takes the step its own state demands, every other stream stays as it was |
| ServerDemux.ServerProtocol.MaybePassThrough | edgeproxy/tunnel/quic_tunnel.py:420-432 | switches a stream to relaying once its CONNECT header is complete, and remembers the others as framed |
| ServerDemux.ServerProtocol.OpenRelay | edgeproxy/tunnel/quic_tunnel.py:434-443 | makes the relay stream, feeds it what is left, and opens it; or answers 501, which raises on a stream that only the client may send on |
| ServerDemux.ServerProtocol.StreamReset | edgeproxy/tunnel/quic_tunnel.py:412-413 | a reset fails the relay it names, and no other |
| ServerDemux.ServerProtocol.ConnectionTerminated | edgeproxy/tunnel/quic_tunnel.py:414-417 | every relay fails and none is routed any more |
| ServerDemux.ServerProtocol.HandleAll | edgeproxy/tunnel/quic_tunnel.py:388-443 | after any interleaving of many streams' events each stream stands where its own events alone would have taken it |
| PassThrough.AlwaysPrefix | edgeproxy/tunnel/transport.py:37-58 | over every schedule, resets, aborts and losses included, and with the other copy loop going on after one has failed, each side has received a prefix of what the other sent |
| PassThrough.EndMeansEverythingUnlessCut | edgeproxy/tunnel/transport.py:37-58 | over every schedule and for each direction by itself: a side that has seen the end of stream has exactly what the other side sent if and only if that direction was not cut, or only behind its last byte; uncut, the other side has finished |
| PassThrough.UpIsCutWhen | edgeproxy/tunnel/quic_tunnel.py:143-156 | the way up is cut only by a break of the stream or a failing server loop, before its end has arrived, at the byte where it stood |
| PassThrough.DownIsCutWhen | edgeproxy/tunnel/quic_tunnel.py:143-156 | the way down is cut only by a break of the stream or by the client giving it up, before its end has arrived, at the byte where it stood |
| PassThrough.NothingBehindTheHeaderTooEarly | edgeproxy/tunnel/quic_tunnel.py:237-252 | the client sends nothing behind the CONNECT header before the server has opened the relay, so the lossy case of the demultiplexer cannot arise |
| PassThrough.ResetTruncates | edgeproxy/tunnel/quic_tunnel.py:143-156 | a schedule that cuts: the site sees an end of stream although a byte is missing |
| PassThrough.RealFramesAreValid | edgeproxy/server/proxy.py:149-172 | the CONNECT frame with host and port and the answers with their status, as the proxies build them, satisfy what the theorems assume |
| Delivery.UpGetsThrough | edgeproxy/tunnel/transport.py:40-51 | over every schedule, whatever happens to the other direction: when the client copies, the way up is uncut and none of its copy, end, delivery and read steps changes anything any more, the site has all the browser sent, and sees the end exactly if the browser has finished |
| Delivery.DownGetsThrough | edgeproxy/tunnel/transport.py:40-51 | the same from the site to the browser |
| Delivery.WhatCameBeforeTheCutIsGiven | edgeproxy/tunnel/transport.py:46-51 | a reader with nothing left to read has exactly what arrived before its direction was cut, if it was, and sees the end exactly if the end arrived or the cut came |
| Delivery.RestIsDone | edgeproxy/tunnel/quic_tunnel.py:237-252 | without a failure the handshake does not stop half-way: a run in which no step changes anything is connected at both ends, with everything delivered both ways |
| Delivery.AlwaysCompletes | edgeproxy/tunnel/transport.py:37-58 | however the bytes were cut and delayed so far, without a failure the steps of the copy loops and the network can always be carried on to that point, and every step that changes anything gets nearer to it |
| Delivery.SourceIsWhatWasSent | edgeproxy/tunnel/transport.py:40-44 | what a direction counts as its source is all that its program sent before it finished |
| Delivery.RefusalIsReported | edgeproxy/server/proxy.py:151-171 | the client copies only for a site that the server reached; a refusal that arrives makes it fail |
| Delivery.AbortIsFinal | edgeproxy/tunnel/quic_tunnel.py:148-153 | whoever gives up sends nothing more, whatever happens then, and its reader still gets to see an end |
| Delivery.FailuresTakeEffect | edgeproxy/tunnel/quic_tunnel.py:143-153 | a time-out ends the opening, an error ends a client that copies, a break ends a direction; and each only where it can happen |
| Delivery.NothingArrivesBehindTheEnd | edgeproxy/tunnel/quic_tunnel.py:143-146 | behind the end or the break of a direction nothing arrives |
| Delivery.WritingToAClosedStreamGivesUp | edgeproxy/tunnel/transport.py:53-56 | writing to a stream that was reset or lost makes the writer give up, with nothing sent |
| Delivery.TooLateToAnswer | edgeproxy/server/proxy.py:163-171 | a server that connects when its stream is closed already gives up without an answer |
| QuicCorrelation.SettlesOnce | edgeproxy/tunnel/quic_tunnel.py:192-227 | whatever happens later, a request that has settled stays as it is |
| QuicCorrelation.ReplyIsTheWholeStream | edgeproxy/tunnel/quic_tunnel.py:192-235 | on a live connection a request that was not given up has its reply if and only if its own stream has ended and decodes, and then that decoding, and waits otherwise; after the end of the connection only requests made later wait |
| QuicCorrelation.EmptyReplyLeavesWaiting | edgeproxy/tunnel/quic_tunnel.py:445-454 | the empty reply, sent when the handler failed, ends the stream and leaves its request waiting |
| QuicCorrelation.OneStreamEach | edgeproxy/tunnel/quic_tunnel.py:229-235 | no two requests share a stream |
| QuicCorrelation.PushHandedOverOnce | edgeproxy/tunnel/quic_tunnel.py:201-215 | a push is handed over exactly once, when its stream has ended, if and only if all its bytes decode |
| QuicCorrelation.CarriedIsWhatCame | edgeproxy/tunnel/quic_tunnel.py:70-79 | what a stream has carried is all that its events brought, in order, and it has ended exactly if its end or a reset came |
| QuicCorrelation.EndLeavesNothing | edgeproxy/tunnel/quic_tunnel.py:219-227 | the end of the connection leaves nobody waiting and nothing in the tables |
| QuicCorrelation.GiveUpExactlyOne | edgeproxy/tunnel/quic_tunnel.py:209-213 | a caller that stops waiting ends its own request, if it still waits, and no other |
| QuicCorrelation.ResetEndsOneRelay | edgeproxy/tunnel/quic_tunnel.py:199-200 | a reset ends the routing of the stream it names, if that is routed, and nothing else |
| QuicCorrelation.RoutedUntilTheEnd | edgeproxy/tunnel/quic_tunnel.py:192-200 | a pass-through stream is routed from its opening exactly until its end, its reset or the end of the connection |
| QuicCorrelation.ClientProtocol.DataReceived | edgeproxy/tunnel/quic_tunnel.py:192-215 | relay streams are routed past the assembler; the end of any other stream hands its payload over |
| QuicCorrelation.ClientProtocol.OpenRequest | edgeproxy/tunnel/quic_tunnel.py:229-235 | a new waiter under a stream of its own |
| QuicCorrelation.ClientProtocol.ConnectionTerminated | edgeproxy/tunnel/quic_tunnel.py:219-227 | everybody who waits fails, the tables are emptied |
| TcpFraming.PackedMessagesAreReadBack | edgeproxy/tunnel/tcp_transport.py:31-37 | packed messages are read back as the same sequence under any chunking, and as a prefix of it while bytes are missing |
| TcpFraming.ReadSplits | edgeproxy/tunnel/tcp_transport.py:35-37 | reading in two goes is reading all at once |
| TcpFraming.ChunksDoNotMatter | edgeproxy/tunnel/tcp_transport.py:35-37 | what was read depends on the bytes that arrived, not on how they were cut |
| TcpFraming.PackedExactlyWhen | edgeproxy/tunnel/tcp_transport.py:31-32 | a message can be packed if and only if its id fits 8 bytes and its payload can be counted in 4 |
| Waiters.FailThem | edgeproxy/tunnel/quic_tunnel.py:219-227 | of the requests named, those that still wait fail, and nothing else changes |
| TcpCorrelation.TcpClient.FailConn | edgeproxy/tunnel/tcp_transport.py:62-68 | everybody who waits on the connection fails, nobody else; it is closed with nobody pending |
| TcpCorrelation.TcpClient.MakeRequest | edgeproxy/tunnel/tcp_transport.py:129-136 | a waiter under the next id of the current connection, if there is one that is open |
| TcpCorrelation.TcpClient.Receive | edgeproxy/tunnel/tcp_transport.py:107-121 | reads every message the bytes allow, until one does not decode |
| TcpCorrelation.TcpClient.ReadMessage | edgeproxy/tunnel/tcp_transport.py:109-121 | one turn of the read loop: a reply, a push, or the end of the connection |
| TcpCorrelation.TcpClient.MoveTo | edgeproxy/tunnel/tcp_transport.py:142-148 | the old connection fails first; a new one follows if connecting works |
| TcpCorrelation.TcpClient.GiveUpOn | edgeproxy/tunnel/tcp_transport.py:113-115 | a request whose caller stopped waiting is done with |
| TcpCorrelation.TcpClient.ConnectionLost | edgeproxy/tunnel/tcp_transport.py:118-121 | a lost connection is read no more and fails |
| TcpCorrelation.TcpClient.Shut | edgeproxy/tunnel/tcp_transport.py:150-156 | the connection fails and is forgotten |
| TcpGuarantees.SettlesOnce | edgeproxy/tunnel/tcp_transport.py:62-68 | every request settles at most once, across reconnects |
| TcpGuarantees.ReplyIsOwn | edgeproxy/tunnel/tcp_transport.py:107-136 | a request gets the first message with its own id that its own connection delivered after the request, decoded; the id is never 0; without such a message it gets none |
| TcpGuarantees.NoMessageAnswersTwice | edgeproxy/tunnel/tcp_transport.py:112-115 | no message answers two requests |
| TcpGuarantees.NobodyLeftBehind | edgeproxy/tunnel/tcp_transport.py:62-68 | whoever still waits, waits on an open connection that is being read |
| TcpGuarantees.MigrationSettlesEverybody | edgeproxy/tunnel/tcp_transport.py:142-148 | a migration leaves no request waiting on the old connection |
| TcpGuarantees.ReplyIsWhatThePeerSent | edgeproxy/tunnel/tcp_transport.py:31-37 | end to end over arbitrary chunks: a reply is the decoded payload of a message that the peer packed under the request's id |
| TcpGuarantees.BadReplyFailsEverybody | edgeproxy/tunnel/tcp_transport.py:214-221 | an empty reply, which the server sends when its handler failed, takes the connection and everybody waiting on it down |
| TcpProgress.NothingLeftUnread | edgeproxy/tunnel/tcp_transport.py:107-121 | after every event the messages read of a connection that is being read are all that its bytes hold |
| TcpProgress.EveryReplyIsGiven | edgeproxy/tunnel/tcp_transport.py:107-121 | once the bytes of packed messages have arrived on an open connection exactly these messages have been read, and a request on it that was not given up has its reply if and only if a message with its id came after it |
| TcpProgress.EveryPushIsHandedOver | edgeproxy/tunnel/tcp_transport.py:116-117 | for each connection the pushes handed over are exactly its messages with id 0 that decode, each once and in order |
| TcpProgress.EndsForAReason | edgeproxy/tunnel/tcp_transport.py:118-121 | a connection is read until it is lost or a message of it does not decode, and open until then unless the tunnel moved or was closed |
| TcpProgress.RequestsAreCounted | edgeproxy/tunnel/tcp_transport.py:129-136 | a request on an open connection waits under the count of requests made on it, from the messages that come from then on; a connection just made is the current one and open |
| TcpProgress.IdsAreKeptExactlyWhile | edgeproxy/tunnel/tcp_transport.py:113-115 | an id is kept exactly as long as its connection is open and no message with it has come since the request, whether or not anybody still waits |
| TcpProgress.GiveUpExactlyOne | edgeproxy/tunnel/tcp_transport.py:113-115 | a caller that stops waiting ends its own request, if it still waits, and no other |
| TcpProgress.InputIsWhatArrived | edgeproxy/tunnel/tcp_transport.py:35-37 | what a connection has taken in is what arrived on it, all of it and in order |
| TcpProgress.CloseSettlesEverybody | edgeproxy/tunnel/tcp_transport.py:150-156 | closing leaves nobody waiting on the current connection and no connection to ask on |
| TcpProgress.LossSettlesEverybody | edgeproxy/tunnel/tcp_transport.py:118-121 | a lost connection is read no more and leaves nobody waiting on it |
| PageCache.Cache.Peek | edgeproxy/client/cache.py:66-68 | expires first, then finds the entry of that url if there is one |
| PageCache.Cache.Get | edgeproxy/client/cache.py:70-81 | a hit moves the entry to the most recent end and counts; a miss only counts |
| PageCache.Cache.Put | edgeproxy/client/cache.py:83-101 | replaces the url's old entry, carries its reads over to a pushed one, and evicts until the capacity holds |
| PageCache.Cache.MakeRoom | edgeproxy/client/cache.py:98-101 | evicts from the least recent end until the rest fits |
| PageCache.Cache.Expire | edgeproxy/client/cache.py:103-115 | takes out exactly the pushed, unread entries that are too old, and accounts for each |
| PageCache.Cache.Finalize | edgeproxy/client/cache.py:121-125 | what is pushed and still unread counts as wasted |
| PageCache.SweepIsExpire | edgeproxy/client/cache.py:108-112 | deleting the collected entries one by one by their url leaves exactly those that were not stale, in order |
| CacheAccounting.AlwaysBalanced | edgeproxy/client/cache.py:70-129 | after any operations the entries fit the capacity, used is their size, and every pushed byte and page is wasted, held, read and evicted, or superseded, each once |
| CacheAccounting.FinalAccount | edgeproxy/client/cache.py:117-129 | after the one finalize, pushed bytes equal wasted plus read plus superseded bytes, and expired bytes are part of the wasted ones |
| CacheAccounting.UsedOrWasted | edgeproxy/client/cache.py:75-79 | first uses and wasted pages together are never more than the pushes |
| CacheAccounting.StatisticsCountTheReads | edgeproxy/client/cache.py:70-96 | over every run hits, misses and first uses count exactly the gets that found the page held, not held, and prefetched but unread; and the pushed bytes are those of the prefetched pages stored |
| CacheAccounting.ExpiredBytesAreCounted | edgeproxy/client/cache.py:103-116 | the bytes counted as expired are exactly those of prefetched pages that an operation found unread and too old |
| CacheLedger.UsedOrWastedOnce | edgeproxy/client/cache.py:70-129 | over every run no push is counted twice, neither as used and as wasted nor twice as either: hits and wasted bytes are the sums over a ledger that names each push at most once, before and after finalize |
| CacheInclusion.EvictKeepsLongestFit | edgeproxy/client/cache.py:98-101 | eviction keeps the longest run of most recent entries that fits |
| CacheInclusion.PutKeepsAndEvictsLeast | edgeproxy/client/cache.py:83-101 | a put that fits keeps the new entry, most recent, and evicts exactly the shortest least recent run that makes room |
| CacheInclusion.BiggerCacheIncludesSmaller | edgeproxy/client/cache.py:70-101 | for every sequence of references, each at its own time by each cache's own clock, fixed sizes and no expiry, the smaller cache is the most recent end of the larger |
| CacheInclusion.BiggerCacheNeverLosesAHit | edgeproxy/client/cache.py:70-101 | so every hit of the smaller cache is a hit of the larger one |
| LeastSquares.FitIsOptimal | edgeproxy/client/handover_predictor.py:71-83 | unless all times are equal, no line leaves a smaller sum of squared residuals than the fitted one, and any other line leaves a larger one |
| LeastSquares.HowFarOff | edgeproxy/client/handover_predictor.py:71-83 | every line's residual is the fitted line's plus two squares that measure how far it is off |
| LeastSquares.ConfidenceInRange | edgeproxy/client/handover_predictor.py:71-83 | R squared is between 0 and 1, and 1 exactly when the fitted line goes through every sample |
| LeastSquares.LineIsRecovered | edgeproxy/client/handover_predictor.py:71-83 | samples of one line at different times give that line back with full confidence |
| LeastSquares.GuardMeansSameTimes | edgeproxy/client/handover_predictor.py:78-79 | the guard against dividing by zero fires exactly when all samples have one time |
| HandoverPrediction.HandoverPredictor.Update | edgeproxy/client/handover_predictor.py:40-68 | the deque, the fit and the hint after one sample, for every configuration, and whether it divides by zero |
| HandoverPrediction.UsableNeverRaises | edgeproxy/client/handover_predictor.py:49-62 | with at least one required sample, no negative level window and a negative minimum slope it never does |
| HandoverPrediction.HandoverPredictor.Decide | edgeproxy/client/handover_predictor.py:57-68 | clears, raises or refreshes the hint |
| HandoverPrediction.HandoverPredictor.SmoothedLevel | edgeproxy/client/handover_predictor.py:50-51 | the mean of the samples in the level window |
| HandoverPrediction.DequeIsTheWindow | edgeproxy/client/handover_predictor.py:43-45 | with times that never go back, the deque is exactly the samples of the last window_s seconds of the whole history, in order |
| HandoverPrediction.HintAlwaysInRange | edgeproxy/client/handover_predictor.py:57-68 | in every reachable state a hint's time is between 0 and the horizon, its confidence between 0 and 1 |
| HandoverPrediction.DroppedAndRaisedExactlyWhen | edgeproxy/client/handover_predictor.py:57-68 | an update drops a hint exactly when the level is above threshold plus margin and the trend does not fall, and raises one exactly when the signal is unusable already or a confident fade crosses the threshold within the horizon |
| HandoverPrediction.RisingLevelIsTheMean | edgeproxy/client/handover_predictor.py:49-55 | while the trend does not fall, the level of the hint times the number of samples in the level window is their sum, and it lies between the lowest and the highest of them |
| HandoverPrediction.SamplesDecide | edgeproxy/client/handover_predictor.py:49-63 | an active hint is dropped only if a sample of the level window is above threshold and margin and the trend does not fall; with none above the threshold there is a hint for now; with all above it and no fall none is raised |
| HandoverPrediction.HintMeans | edgeproxy/client/handover_predictor.py:57-68 | on a confident fade the announced time is the one after which the trend leads from the level exactly to the threshold, if within the horizon; otherwise the hint stays as it was, keeps its time with the numbers of today, or is dropped |
| HandoverPrediction.LagCorrectionExactIff | edgeproxy/client/handover_predictor.py:50-55 | on a straight fade the corrected level is the line's own value if and only if the mean age of the averaged samples is half the level window |
| HandoverPrediction.RecentOnGrid | edgeproxy/client/handover_predictor.py:50-50 | on a grid whose step divides the level window the window holds the last whole steps |
| HandoverPrediction.LinearFadeIsExact | edgeproxy/client/handover_predictor.py:40-68 | on a straight fade on such a grid the hint's time is exactly the time left until the line meets the threshold, from any earlier state |
| HandoverPrediction.FadeIsExactInEveryRun | edgeproxy/client/handover_predictor.py:40-68 | the same about whole histories, whatever came before the window |
| PathManagement.PathManager.Step | edgeproxy/client/path_manager.py:90-117 | one decision: samples, switch, hint; with the predictors as objects of their own |
| PathManagement.PathManager.ReadSignals | edgeproxy/client/path_manager.py:92-95 | every interface's predictor gets its own sample |
| PathManagement.PathManager.BestAlternative | edgeproxy/client/path_manager.py:82-88 | the loop finds the first healthy other interface of greatest headroom |
| PathManagement.PathManager.SendHint | edgeproxy/client/path_manager.py:132-144 | a hint that could not be sent changes nothing, so it is tried again |
| PathManagement.BestIsGreatest | edgeproxy/client/path_manager.py:78-88 | the choice is a healthy other interface; none has more headroom, no earlier one as much; there is none only if no other is healthy |
| PathManagement.SwitchesRight | edgeproxy/client/path_manager.py:109-130 | a step switches exactly when the link is unanswered and another interface is healthy, and then to a healthy one of greatest headroom, whether or not the migration works |
| PathManagement.AnnouncesRight | edgeproxy/client/path_manager.py:114-144 | a hint goes out exactly when the outlook differs from what the server was told and the send works; an outage is announced only when the link is warned or unanswered and no other is healthy, and never in a step that switches |
| PathManagement.HintsAlternate | edgeproxy/client/path_manager.py:116-144 | over every run the hints that got out alternate outage, end, outage, and hint_sent is the last of them |
| PathManagement.SwitchesFormAPath | edgeproxy/client/path_manager.py:119-123 | over every run the switches form one path from the first interface to the one in use, never staying in place |
| PathManagement.PredictorsAreIndependent | edgeproxy/client/path_manager.py:92-95 | every predictor has seen exactly its own interface's signal, whatever was switched to |
| PathManagement.SentHintsInRange | edgeproxy/client/path_manager.py:132-144 | every hint sent announces a time between 0 and the horizon |
| PathManagement.SentHintTells | edgeproxy/client/path_manager.py:132-144 | a frame that goes out tells the new outlook, the time that the predictor of the interface now in use announces or 0, and the expected outage exactly with an outage |
| Prefetching.Decide | edgeproxy/server/prefetch_policy.py:84-106 | the loop computes the greedy plan, its size, and the limits in force |
| Prefetching.RankedIsStableSort | edgeproxy/server/prefetch_policy.py:96-96 | the ranking is the stable sort by falling probability |
| Prefetching.PlanIsMaximal | edgeproxy/server/prefetch_policy.py:96-106 | a plan fits its budget, holds only likely pages the client lacks, each once and the likeliest first, and no such page left out would fit into what is left |
| Prefetching.PlanIsLexicallyBest | edgeproxy/server/prefetch_policy.py:96-106 | any other affordable choice first differs from the plan, going down the ranking, at a page that the plan takes and the other leaves out |
| Prefetching.OutageLimitsNoTighter | edgeproxy/server/prefetch_policy.py:60-71 | with outage settings no tighter than the normal ones, so are the limits, metered or not |
| Prefetching.LimitsAre | edgeproxy/server/prefetch_policy.py:60-71 | the budget is the normal one, or while an outage is predicted the outage budget and so much per second of it cut off to whole bytes; on a metered link its metered share cut off again; and no more than the maximum |
| Prefetching.OutagePlanExtendsNormal | edgeproxy/server/prefetch_policy.py:60-106 | with default sizes the normal plan is the first part of the outage plan, metered or not |
| Prefetching.LongerOutageExtendsPlan | edgeproxy/server/prefetch_policy.py:60-106 | the plan for a shorter outage is the first part of the plan for a longer one |
| Prefetching.PlanIsExtendedExactlyWhen | edgeproxy/server/prefetch_policy.py:96-105 | for any known sizes the plan under smaller limits is the first part of the plan under larger ones if and only if no page passed over for want of room, with a later page still taken, would have had room under the larger budget |
| Prefetching.KnownSizesBreakThePrefix | edgeproxy/server/prefetch_policy.py:101-103 | an input where it is not: the bigger budget takes one bigger page instead |
| PushScheduling.ClientRecord.PageViewed | edgeproxy/server/proxy.py:174-188 | records the page, and replaces the running task unless the client is about to be unreachable |
| PushScheduling.ClientRecord.OnHint | edgeproxy/server/proxy.py:190-207 | outlook, deadline and re-plan |
| PushScheduling.ClientRecord.OnAnswered | edgeproxy/server/proxy.py:140-140 | a page that was answered counts as something the client has |
| PushScheduling.ClientRecord.OnAcked | edgeproxy/tunnel/quic_tunnel.py:378-381 | an acknowledgement takes its bytes off those unacknowledged, never below none |
| PushScheduling.ClientRecord.OnResume | edgeproxy/server/proxy.py:218-352 | one stretch of a task between two awaits; a cancelled task does nothing |
| PushScheduling.ClientRecord.StartPlan | edgeproxy/server/proxy.py:238-250 | the plan and its budget are fixed by the outlook and the pages held at this moment; without a prediction the task ends |
| PushScheduling.ClientRecord.PageFetched | edgeproxy/server/proxy.py:324-335 | a page that could not be fetched or does not fit the budget is passed over |
| PushScheduling.ClientRecord.BacklogSeen | edgeproxy/server/proxy.py:336-342 | check and push in one go: spent, sent, backlog and log move together, or the task waits or leaves the loop |
| PushScheduling.ClientRecord.PickLinks | edgeproxy/server/proxy.py:279-280 | the loop over the ranked links keeps those the client lacks, at most k |
| PushScheduling.WaitBacklog | edgeproxy/server/proxy.py:361-368 | the first look that finds room or the dropout due decides, and the answer is yes exactly if it finds room and no dropout |
| PushScheduling.LookMovesTask | edgeproxy/server/proxy.py:336-342 | a look at the backlog makes the waiting task stay, push or leave the loop, as that method answers |
| PushScheduling.WaitsThrough | edgeproxy/server/proxy.py:336-368 | a whole wait, whatever happens beside it: while the looks find neither room nor the dropout due and nobody cancels it, the task stays exactly as it is |
| PushScheduling.AtMostOneLive | edgeproxy/server/proxy.py:182-188 | over every run at most one task of a client can still push, and it is the one started last |
| PushGuarantees.NeverPushedTwice | edgeproxy/server/proxy.py:241-342 | over every run no page is pushed twice, across both depths and all re-plans, and what was pushed counts as held |
| PushGuarantees.PlanKeepsItsBudget | edgeproxy/server/proxy.py:250-342 | the wire bytes of one plan, both depths, sum exactly to what it counts as spent, never exceed its limit, and the limit never exceeds the configured maximum |
| PushGuarantees.PushesBeforeTheDropout | edgeproxy/server/proxy.py:318-342 | every push happens with no deadline set or strictly before it |
| PushGuarantees.StopsBeforeTheWarnedDropout | edgeproxy/server/proxy.py:198-203 | after a hint that announces a dropout, everything pushed before the next hint is pushed before that dropout less the margin |
| PushGuarantees.QuietUntilTheNextHint | edgeproxy/server/proxy.py:182-188 | from the deadline on nothing is pushed and no task is started or replaced until another hint comes |
| PushGuarantees.ViewRestartsUnlessOffline | edgeproxy/server/proxy.py:182-188 | a view replaces the task exactly if pages are predicted and the client is not about to be unreachable; otherwise the old task stays |
| PushHistory.RecordIsTheHistory | edgeproxy/server/proxy.py:174-207 | page, outlook, deadline and the pages the client has are those of the views, hints, answers and pushes so far |
| PushHistory.HintPlansAgainExactlyWhen | edgeproxy/server/proxy.py:190-207 | over every run a hint puts one new task in place of all others, for the outlook it told, exactly if it warns, the reader is on a page, pages are predicted and the deadline is not due; otherwise the tasks stay |
| PushHistory.ViewPlansAgainExactlyWhen | edgeproxy/server/proxy.py:174-188 | a view does so exactly if pages are predicted and the deadline is not due |
| PushHistory.OnlyViewsAndHintsPlan | edgeproxy/server/proxy.py:174-207 | nothing else starts, replaces or cancels a task, and no step changes another task |
| PushHistory.PlanIsForWhatWasToldLast | edgeproxy/server/proxy.py:241-250 | a task plans with the limits of the outlook told last, leaving out what the reader got by answer or push |
| PushHistory.BudgetStays | edgeproxy/server/proxy.py:250-250 | the budget and the predictions of a plan never change afterwards |
| PushHistory.NoPredictionNoPlan | edgeproxy/server/proxy.py:242-244 | a page of which nothing can be predicted ends its task with nothing pushed |
| PushHistory.BacklogDecides | edgeproxy/server/proxy.py:361-368 | a page that waits goes out at the first look that finds nothing unacknowledged, or room for it under the cap, and the deadline not due; without room it waits on |
| PushHistory.UnackedIsPushedNotAcked | edgeproxy/tunnel/quic_tunnel.py:378-381 | the bytes counted as unacknowledged are those pushed less those acknowledged |
| PushHistory.ListIsGoneThrough | edgeproxy/server/proxy.py:317-342 | when a task leaves a push loop, at either depth, every page at the head of its list was pushed, could not be fetched or did not fit when its turn came, and pages are left only if the budget is used up or the deadline is due |
| PushHistory.AllThatFitsIsPushed | edgeproxy/server/proxy.py:317-342 | from any reachable state a task that is left in peace pushes exactly the pages that fit the rest of its budget at their turn, in order, through the whole list unless the budget is used up first |
| PushHistory.BehindTheLoop | edgeproxy/server/proxy.py:251-255 | a push loop ends only at its head, for want of pages, budget or time, or waiting, for want of time; the first goes on to the second click if and only if a long outage is predicted |
| PushHistory.EveryChildHasItsTurn | edgeproxy/server/proxy.py:273-281 | the pages expanded have their turn in order until budget or time is used up; those without a prediction are passed over |
| PushGuarantees.BacklogIsBounded | edgeproxy/server/proxy.py:331-368 | given that the reported backlog covers the unacknowledged pushes, these never exceed the cap, or else all belong to the frame pushed last |
| PushGuarantees.BacklogWithinLargestFrame | edgeproxy/server/proxy.py:361-368 | so they never exceed the larger of the cap and the largest frame |
| PushGuarantees.OverTheCapExactlyWhen | edgeproxy/server/proxy.py:364-364 | a push exceeds the cap exactly when its frame alone does, which needs an empty backlog |
| PushGuarantees.SecondClickOnlyInLongOutages | edgeproxy/server/proxy.py:253-255 | a task goes on to depth 2 only when an outage longer than a page view is predicted, and after its first push loop |
| PushGuarantees.PicksAreTheLikeliest | edgeproxy/server/proxy.py:279-281 | of a child page the k likeliest links that the client lacks, no less if there are that many |
| PushGuarantees.NoPredictorNoPush | edgeproxy/server/proxy.py:178-179 | without a predictor nothing is ever pushed |
| PushGuarantees.ExpandsWhatIsLikely | edgeproxy/server/proxy.py:256-259 | the pages expanded for depth 2 are those of the predictions that fit the limits, none left out that would still fit, whether or not the client has them |
| PushHeld.HeldWhenPushedExactlyWhen | edgeproxy/server/proxy.py:241-342 | of every push in every run, at either depth: the client lacked the page when the list it stands on was fixed, and has it when it is pushed if and only if the reader's own request for it was answered in between |
| PushHeld.RequestedMeanwhileIsStillPushed | edgeproxy/server/proxy.py:324-342 | a run where that happens |
| Origin.MatchesExactlyWhenNamed | data/origin_server.py:116-121 | the origin answers 304 to a list of tags exactly when the list names its current tag, weakly or not, whatever If-Modified-Since says |
| Origin.TagsOfJoined | data/origin_server.py:119-119 | splitting, stripping and unmarking undo how a browser writes the list |
| Origin.DatesDecideWithoutTags | data/origin_server.py:121-127 | without tags, the date a page was served with gets 304 if and only if the file has not changed since; a date that cannot be read counts for nothing |
| Origin.HeadIsTheSameWithoutBody | data/origin_server.py:85-114 | HEAD is answered like GET without the body; the body is the page's; no other method is served |
| Origin.StripTakesOffBlanks | data/origin_server.py:119-119 | stripping takes off all blanks at both ends and nothing else |
| ClientProxying.ClientProxy.BeginFetch | edgeproxy/client/proxy.py:170-194 | the answer from the cache, or what is asked with which validators |
| ClientProxying.ClientProxy.EndFetch | edgeproxy/client/proxy.py:195-221 | the reply, and what is stored or counted, once the tunnel has answered or given up |
| ClientProxying.ClientProxy.OnPush | edgeproxy/client/proxy.py:92-108 | a pushed page is stored as pushed and unread, with its validators |
| ClientProxying.RoundTrip | edgeproxy/client/proxy.py:117-130 | terminates for every pattern of failures and delays: by the deadline, after at most timeout / retry_delay tries rounded up, with the first reply there is, giving up only when no time for another try is left |
| ClientProxying.TriesAreBoundedExactlyWhen | edgeproxy/client/proxy.py:117-130 | some number bounds the tries for every pattern of failures and delays if and only if there is a retry delay or no time to begin with |
| ClientProxying.GetHeaderIsFirst | edgeproxy/client/proxy.py:54-59 | the first header of a name, in any case, or none if there is none |
| ClientProxying.CacheableExactlyWhen | edgeproxy/client/proxy.py:53-60 | an answer may be kept if and only if it is a GET with status 200, no header is named set-cookie, and the first cache-control header does not say no-store, in any case |
| ClientProxying.KeptHeaderIsTheLast | edgeproxy/client/proxy.py:214-214 | a page is kept with each header name in lower case and the value given last |
| Revalidation.AgreesWithTheOrigin | edgeproxy/client/proxy.py:161-221 | over every run, a full or confirmed page served to a browser that sent no tag of its own is what the origin held when it handled the request; and every page served is one that the origin held at some time |
| Revalidation.ConfirmedIsCurrent | edgeproxy/server/proxy.py:145-147 | a 304 relayed for the cache's own tag means that the page has not changed |
| Revalidation.OwnTagsAreSafeExactlyWhen | edgeproxy/client/proxy.py:185-188 | with any If-None-Match of the browser's own, wildcard included, a confirmed page is right whatever the origin holds if and only if no other body of that page meets it |
| Revalidation.WrongPageIsServed | edgeproxy/client/proxy.py:185-208 | a run in which a browser gets a page, marked as confirmed, that the origin no longer holds |
| Revalidation.PrefetchedAgainIsReadyExactlyWhen | edgeproxy/client/proxy.py:170-180 | at any clock readings, a held page that is prefetched again is answered from the cache at the next click if and only if it had not been read before and has not expired since |
| Serving.ShownExactlyWhen | edgeproxy/client/proxy.py:170-221 | over every run: without an answer the reader is shown the copy held when he asked, as stale, with its status 200, headers and body, and the error exactly if none was held; a confirmed copy as confirmed; an answer as it came; and at once only prefetched pages |
| Serving.EndIsShown | edgeproxy/client/proxy.py:195-221 | every end of a request under way is shown once |
| Serving.AnsweredAtOnceExactlyWhen | edgeproxy/client/proxy.py:170-194 | a request is answered at once if and only if a copy is held and it is a prefetch or the copy is unread; otherwise it goes out once, with the validators of the browser or else those of the copy |
| Serving.ServerIsToldExactlyWhen | edgeproxy/client/proxy.py:174-180 | the server is told of every view that is answered at once, except prefetches |
| Serving.AnswerIsKeptExactlyWhen | edgeproxy/client/proxy.py:210-220 | an answer becomes the most recent entry, with its validators, if and only if it is a GET with status 200 that fits, sets no cookie and is not marked no-store; otherwise nothing enters the cache |
| Serving.PushIsKept | edgeproxy/client/proxy.py:92-108 | a push that fits becomes the most recent entry, unread unless the copy it replaces had been read |
| Serving.ShownIsCountedAsRead | edgeproxy/client/proxy.py:197-208 | a copy shown as stale or confirmed counts as read once more and becomes the most recent entry, or counts as a miss if it is gone |
| Serving.ReadAtOnceIsCounted | edgeproxy/client/proxy.py:174-180 | so does an unread copy shown at once |
| Serving.PushCarriesThePage | edgeproxy/server/proxy.py:324-331 | a push carries the page as the origin holds it when it is made, with its validators |
| Serving.UnreachedIsBadGateway | edgeproxy/server/proxy.py:128-134 | an origin out of reach is answered for with 502 |
| Serving.ReachedIsAnsweredAsItIs | edgeproxy/server/proxy.py:128-147 | a GET without validators that reaches the origin is answered with the page as it is, one for a removed page with 404 |

## Left out

- PushScheduling.ClientRecord.OnResume: the loops of `_prefetch` and `_push` are cut at their awaits into one step per event, with the place where a task waits as data; a step may be shorter than what really runs between two awaits, so there are more interleavings than the program has, never fewer. The outcomes of fetches, page titles and the predictor's questions are the environment's choice.
- PushScheduling.ClientRecord.OnHint: the history that accompanies a page, event logs and the session table are not part of this model; one record stands for one client.
- TcpCorrelation.TcpClient.MakeRequest: connections and waiters are table entries with numbers, not linked objects, so aliasing of futures is not modelled; a request whose frame cannot be encoded is not modelled.
- QuicCorrelation.ClientProtocol.OpenRelay: what is read from a pass-through stream is modelled by QuicStreams and PassThrough, not here; aioquic's own sending is not part of this model.
- HandoverPrediction.HandoverPredictor.Update: floating-point rounding is not modelled.
- PathManagement.PathManager.Step: configurations with which a predictor can divide by zero are excluded; the exception would end the loop that calls it.
- ClientProxying.RoundTrip: the loop itself is given for a positive retry delay, since without one it need not end; try durations are given in advance as a function of the try's number.
- ClientProxying.ClientProxy.BeginFetch: header names are compared in ASCII; hop-by-hop filtering, URL canonicalisation and the history list are not part of this model.
- Revalidation.AgreesWithTheOrigin: the origin is the one of `data/origin_server.py`, so a page without an entity tag and a page marked no-store do not occur in its runs.
- PassThrough.EndMeansEverythingUnlessCut: an end of stream is the half-close that the copy loop writes; the final close of the TCP connection when the copy loops are done or have failed is not counted as one.
- QuicStreams.QuicStream.SendData: flow control and the wait for acknowledgements before the next write are not modelled.
- PathManagement.PathManager.SwitchTo: the time of the switch and the ping loop's clock are not recorded.
- aioquic, TLS, sockets, packet loss and the probe time-out reset: library state that only streams, resets and terminations make visible here.
- The JSON, deflate and SHA-256 algorithms: replaced by their laws.
- HTML parsing, link extraction, predictors: any probabilities may come out.
- HTTP text parsing on the browser side, keep-alive, certificates, settings, event logs, the datagram service.
- The server's TCP accept loop and the origin's file lookup: thin layers over the standard library.
- Agreement between the client's hint_sent and the server's outlook: hints travel on separate streams and may be reordered, so no such invariant holds.
- Everything in `experiments/`, `emulation/` and `site/`.
