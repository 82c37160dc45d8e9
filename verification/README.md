# Verified model of WebBench 2

WebBench 2 drives many HTTP or HTTPS connections at a server for a while and reports completed
requests, failures and bytes. This project models its engines in Dafny and proves what they promise.

* **One connection** (`automaton.dfy`, `invariants.dfy`): the nine-state automaton of
  `handle_ready_connection` as functions on a value that also carries its history (bytes put on the
  wire, bytes received, attempts, sockets and SSL objects made and released). Operating system and
  OpenSSL calls are `Outcome`s: offers cut down to what the call asked for, so every outcome is possible.
  `transitions.dfy` and `lifecycle.dfy` say of every handler call, allocation, clean-up and round what it comes to,
  in terms of what it meets and not of the automaton.
* **The poll engine** (`bitmap.dfy`, `connection.dfy`, `fleet.dfy`, `poll_engine.dfy`): the structures,
  the packed bitmap and the compacted pollfd array changed in place, loop by loop, each method proved
  equal to the functions of `automaton.dfy`, `rounds.dfy` and `poll_model.dfy`. `poll_theorems.dfy`,
  `progress.dfy`, `chunking.dfy`, `handshake_bound.dfy` and `bare_handshake.dfy` say what follows for every
  run; `lockstep.dfy` builds the runs that show where something fails.
* **The epoll engine** (`epoll_model.dfy`, `epoll_engine.dfy`, `epoll_theorems.dfy`,
  `epoll_tunnel.dfy`): the same connections over the kernel's interest table, with `epoll_lockstep.dfy` for
  the runs that show a failure. `equivalence.dfy` proves on which runs both engines compute the same,
  whatever the order of events, and `divergence.dfy` for which configurations they always do.
* **The threaded engine** (`threads.dfy`): worker loops, and a state machine with every read and write
  of the shared totals as a step of its own, over all schedules. `communicator.dfy` has the blocking TLS
  loops and ties them to the automaton.
* **The command line and the request** (`numbers.dfy`, `arguments.dfy`, `url_theorems.dfy`,
  `request.dfy`, `http_reader.dfy`, `request_theorems.dfy`, `connect_text.dfy`, `end_to_end.dfy`): URL and
  proxy parsing, the request builder, a reader after sections 2.1, 3 and 5 of RFC 9112, the CONNECT
  request, and the round trips between them.

`dafny verify dfyconfig.toml` checks everything.

## What the code does differently from what it seems to promise

* `src/bench_poll.c:457` passes `sizeof(conn_setup_bitmap)`, the size of a `char *`, where the other
  cases pass the bitmap's size. The bound is a parameter of the model; `HandshakeBound.AsWritten` proves
  that the written bound stalls some run exactly with more than 64 connections that can reach a handshake.
* `src/bench_epoll.c:157` keeps the result of `send` in a `size_t`, so a failed `send` of the CONNECT
  request counts as progress. The engines' handlers differ exactly there (`Equivalence.HandlersAgree`), and
  their runs exactly from the first round in which it happens (`Equivalence.EnginesAgree`). So they agree on
  every run exactly if port 1 is not used and there is no tunnel the epoll engine can ask for
  (`Divergence.EnginesAgreeExactly`). With such a tunnel two rounds from start-up are enough for epoll to
  await the answer to a CONNECT request of which nothing was sent (`Divergence.SkipsTheConnect`,
  `Divergence.AskedFirstExactly`), and an attempt has no bound (`EpollTunnel.BoundedExactly`).
* `src/bench_poll.c:568` and `src/bench_epoll.c:587` ignore the result of `setup_ssl_context`, so a handshake
  can begin without an SSL object and then never ends (`Progress.HandshakeWithoutSsl`). Some run gets there
  exactly for HTTPS through a tunnel that can be asked for (`BareHandshake.BareExactly`,
  `BareHandshake.EpollBareExactly`).
* A connection whose reallocation fails is never looked at again (`PollModel.IdleForever`,
  `EpollTheorems.EpollIdleForever`); if it is the first one, the poll engine does nothing any more
  (`PollModel.NoFirstSocketStalls`) and the epoll program exits.
* The engines disagree on port 1, which only poll accepts (`Divergence.EnginesAgreeExactly`).
* `src/arguments.c:285` takes a ':' anywhere behind the scheme for the start of a port: with one in the
  path and no port, the URL is accepted with an empty host (`UrlTheorems.UrlWithoutPort`).
* `src/arguments.c:153` stores a `long` port in an `int`, and `src/arguments.c:126` cuts the proxy argument
  to 127 bytes without a word, so that a long host loses digits of its port
  (`UrlTheorems.ProxyPortIsCut`). `UrlTheorems.ProxyRoundTrip` says exactly when host and port come back.
* `src/request.c:82` sends no Host through a proxy, which a server must refuse in HTTP/1.1 after section
  3.2 of RFC 9112, and `src/request.c:60` puts any URL into the request line
  (`RequestTheorems.RefusedThroughProxy`). `RequestTheorems.RequestReadsBack` says exactly which arguments
  make a request that can be read.
* `include/bitmap.h` says that `set_bitmap` returns a positive number on success; for position 0 it
  returns 0, as the model does.
* `recv_tls_data` gives up when a read wishes to write, where the automaton waits
  (`Communicator.WantWriteDiffers`).

## Model

| member | source | states |
|---|---|---|
| Bitmap.SetBitmap | src/bitmap.c:4-19 | adds exactly one position to the set the bitmap stands for, or refuses an out-of-bounds one and changes nothing |
| Bitmap.GetBitmap | src/bitmap.c:21-41 | 1 exactly for the positions in the set, -1 exactly out of bounds, 0 otherwise |
| Bitmap.SetAddsPosition | src/bitmap.c:15-16 | ORing a mask into a byte adds one element to the set and removes none |
| Bitmap.Clear | src/bench_poll.c:862 | the cleared bitmap stands for the empty set |
| Bitmap.BytesFor | src/bench_poll.c:850-854 | the fewest whole bytes that hold a bit per connection |
| Connections.CreateNonblockingSocket | src/bench_poll.c:122-188 | equals the model's address loop; of the sockets it makes only the one it returns stays open |
| Connections.Connection.constructor | src/bench_poll.c:323-345 | a new connection is idle, holds nothing and has counted nothing |
| Connections.Connection.SetupSslContext | src/bench_poll.c:95-120 | succeeds only for a bound SSL object; what each failure leaves behind |
| Connections.Connection.SendProxyConnect | src/bench_poll.c:195-260 | its result and updates amount to the automaton's CONNECT phase, with the epoll copy's `size_t` arithmetic |
| Connections.Connection.HandleProxyResponse | src/bench_poll.c:262-321 | its result and updates amount to the automaton's phase that waits for the proxy |
| Connections.Connection.HandleConnecting | src/bench_poll.c:494-535 | equals the automaton's CONNECTING step |
| Connections.Connection.HandleSending | src/bench_poll.c:613-700 | equals the automaton's SENDING step, over TLS and in clear |
| Connections.Connection.HandleReceiving | src/bench_poll.c:701-796 | equals the automaton's RECEIVING step; the buffer writes are in bounds |
| Connections.Connection.HandleReady | src/bench_poll.c:476-802 | the whole handler equals the automaton's, for every event and outcome |
| Connections.Connection.CleanUp | src/bench_poll.c:372-393 | equals the automaton's cleanup and closes exactly the descriptor held |
| Connections.Connection.AllocateSocket | src/bench_poll.c:347-370 | equals the automaton's allocation; the kernel gains exactly the new descriptor |
| Transitions.FailsExactly | src/bench_poll.c:484-799 | for both engines: a handler call ends in CONN_ERROR if and only if the socket reports an error or the state's own operation breaks, spelled out in events and outcomes |
| Transitions.MovesExactly | src/bench_poll.c:492-799 | for both engines: a state goes to its successor if and only if it has done its part, spelled out in events, outcomes and text received; otherwise it stays or fails |
| Transitions.CountsExactly | src/bench_poll.c:484-799 | a failure is counted once, a completed response once with its length, a forced end not at all; no socket is opened, closed or dialled |
| Transitions.WireExactly | src/bench_poll.c:536-700 | which bytes of which text a call puts on the wire, in clear or through TLS, where the offset ends up, and that only an `SSL_connect` that succeeds secures the channel |
| Transitions.TextExactly | src/bench_poll.c:701-796 | the text received after a call, terminated in the buffer; none once a tunnel is up |
| Transitions.ObjectExactly | src/bench_poll.c:95-120 | an SSL object comes exactly from a connection made without a tunnel or a tunnel granted, if OpenSSL has a context and an object |
| Lifecycle.FirstUsable | src/bench_poll.c:147-180 | the loop ends with the first address whose socket can be had and whose connection goes ahead, or with -1, and has opened and closed a socket for each address before it that gave one |
| Lifecycle.AllocateExactly | src/bench_poll.c:347-370 | with a good port, a name that resolves and a usable address a new attempt begins on the first of them, to the proxy if there is one; otherwise nothing but tried sockets is added |
| Lifecycle.CleanupExactly | src/bench_poll.c:372-393 | socket and SSL object go, offsets and buffer are cleared, counters and history stay |
| Lifecycle.RecycledExactly | src/bench_poll.c:424-428 | after a pass every completed or failed connection is cleared and on a new attempt, or idle for want of a socket; no other is touched |
| Lifecycle.StartedExactly | src/bench_poll.c:823-837 | after start-up every connection has all counters zero and is on its first attempt, or idle for want of a socket |
| Lifecycle.ReportedExactly | src/bench_poll.c:429-466 | an event reaches a handler if and only if the descriptor is ready for it and the state waits for it, and errors always |
| Lifecycle.PollRoundExactly | src/bench_poll.c:857-896 | a round calls the handler of each attempt on its way that has something reported, once, exactly if setup goes through and `poll` does not fail, and ends the loop exactly if it fails |
| Lifecycle.EpollSetupOutcome | src/bench_epoll.c:404-478 | setup reaches its end if and only if the first connection has a socket and no registration is refused but for an entry that exists |
| Lifecycle.EpollRoundExactly | src/bench_epoll.c:876-902 | the same of a round of the epoll engine, in whatever order the events come |
| Invariants.HandleKeepsInv | src/bench_poll.c:476-802 | one handler call keeps every per-connection invariant: buffer padding, wire bytes, TLS channel, accounting, holdings |
| Invariants.CleanupKeepsInv | src/bench_poll.c:372-393 | cleanup keeps them and gives the socket back |
| Invariants.AllocateKeepsInv | src/bench_poll.c:347-370 | so does a new attempt, which takes only a descriptor nobody holds |
| Rounds.RecycleKeepsInv | src/bench_poll.c:424-428 | a finished connection becomes idle or connecting, and no two connections share a socket |
| Rounds.RankCounts | src/bench_poll.c:418-473 | the running count of entries is the number of active connections below |
| Fleets.Fleet.constructor | src/bench_poll.c:823-837 | start-up gives the model's initial world, and the kernel's open descriptors are the ones held |
| Fleets.Fleet.RecycleConnection | src/bench_poll.c:424-428 | cleanup and reallocation in place are the model's recycling of one connection |
| Fleets.Fleet.Summarize | src/bench_poll.c:898-911 | the printed numbers are the totals; everything is released and no descriptor stays open |
| Totalling.TotalLaws | src/bench_poll.c:898-911 | attempts are failed, completed, forced or in flight, and 4 to 8095 bytes per completion, for the sums |
| Totalling.TotalExactly | src/bench_poll.c:898-911 | speed, failures and bytes are each the sum of that counter over the connections |
| PollEngine.BenchPoll.Enter | src/bench_poll.c:429-466 | an active connection gets its bit and the entry at its rank, unless the bitmap refuses it |
| PollEngine.BenchPoll.SetupConnectionFdsets | src/bench_poll.c:395-474 | on success the set bits are exactly the connections active on entry, and the entry at rank(i) holds i's descriptor and mask |
| PollEngine.PollWait | src/bench_poll.c:866 | fills in the readiness of each entry and reports 0 exactly when there is none |
| PollEngine.RankOnto | src/bench_poll.c:880-893 | every entry of the compacted array belongs to an active connection |
| PollEngine.BenchPoll.AnsweredAfterPoll | src/bench_poll.c:866-880 | after `poll`, the entry at rank(i) carries i's events, and none stirs exactly when no connection does |
| PollEngine.BenchPoll.DispatchAt | src/bench_poll.c:882-892 | the cursor is rank(i), `get_bitmap` never returns -1, and the handler gets its own connection's events |
| PollEngine.BenchPoll.DispatchLoop | src/bench_poll.c:880-893 | every marked connection is handled exactly once and no other is touched |
| PollEngine.BenchPoll.Turn | src/bench_poll.c:857-896 | one turn of the loop is one round of the model |
| PollEngine.BenchPoll.Rounds | src/bench_poll.c:857-896 | the loop is a run of the model, up to a failed `poll` |
| PollEngine.RunBenchPoll | src/bench_poll.c:804-919 | the reported speed, failures and bytes are the totals of that run |
| PollModel.SetupOutcome | src/bench_poll.c:395-474 | a pass succeeds exactly when the first connection has a socket and no handshake is out of bounds |
| PollModel.FailedSetupStalls | src/bench_poll.c:857-896 | a world whose setup fails stays so: no later round changes a counter |
| PollModel.IdleForever | src/bench_poll.c:364-368 | a connection whose socket allocation failed stays as it is for the rest of the run |
| PollModel.NoFirstSocketStalls | src/bench_poll.c:397-400 | without a socket for the first connection no round changes anything |
| HandshakeBound.TooManyHandshakesStall | src/bench_poll.c:454-466 | more HTTPS connections than the bound can all reach their handshake, after which nothing completes or fails whatever follows; with the bitmap's size setup goes through |
| HandshakeBound.EnoughRoomForHandshakes | src/bench_poll.c:395-474 | over HTTP, or within the bound, setup succeeds in every run exactly when the first connection has a socket |
| HandshakeBound.StallsExactly | src/bench_poll.c:457 | some run stalls if and only if the configuration can reach a handshake and there are more connections than the bound |
| HandshakeBound.AsWritten | src/bench_poll.c:457 | for the bound as written: with more than 64 connections; for the bitmap's size: never |
| BareHandshake.EpollBareExactly | src/bench_epoll.c:578-599 | in the epoll engine some run does so if and only if there is a tunnel it can ask for |
| BareHandshake.BareExactly | src/bench_poll.c:559-583 | some run reaches a handshake without an SSL object if and only if it is HTTPS through a tunnel, with a port to dial and a target to name |
| Lockstep.AllReachHandshake | src/bench_poll.c:494-583 | the run that brings every connection to its handshake, with or without its SSL object |
| PollTheorems.BytesOnTheWire | src/bench_poll.c:215-700 | in every run the bytes accepted are the CONNECT request, if needed, and the body sent so far; all of it once the response is awaited |
| PollTheorems.TlsSafety | src/bench_poll.c:502-716 | body bytes only after a handshake; the SSL object is there in SENDING and RECEIVING, and without a tunnel in a handshake; retried writes repeat offset and length; plain HTTP sees no tunnel or TLS state; no SSL object is there yet where one is made |
| PollTheorems.DialsWhom | src/bench_poll.c:347-362 | in every run an attempt went to the proxy's host and port if there is a proxy with a port from 1 to 65535, and to the target's otherwise |
| PollTheorems.ProxyAnswerFits | src/bench_poll.c:270-303 | reads and terminators stay in the buffer, and the two length branches cannot be taken |
| PollTheorems.BenchTotals | src/bench_poll.c:898-911 | the conservation and byte laws for the totals and for each connection, after any run |
| PollTheorems.Resources | src/bench_poll.c:903-909 | sockets are pairwise distinct while running; at the end every socket and SSL object was released exactly once |
| Chunking.ResponseStopsFirst | src/bench_poll.c:701-796 | however the stream is cut, the response completes at the first read boundary with a header end, or on the event after the buffer filled, and counts that text |
| Chunking.AnswerStopsFirst | src/bench_poll.c:262-321 | however it is cut, the proxy's answer is decided at the first boundary with the success phrase, or fails on the event after the buffer filled |
| Progress.EveryCallWaitsOrAdvances | src/bench_poll.c:492-799 | for both engines: a handler call leaves every field as it was or lowers the budget, if and only if no epoll `send` fails behind the first byte of a CONNECT request |
| Progress.UntouchedExactly | src/bench_poll.c:492-799 | for both engines: it leaves them exactly when events do not match, a retry is asked for, or the handshake has no SSL object |
| Progress.InterestIsExact | src/bench_poll.c:429-466 | the mask a state is watched with is exactly what its handler answers |
| Progress.AttemptsEnd | src/bench_poll.c:492-799 | for both engines: an attempt ends within 8097 + max(1, request length) calls that have something to do, plus the handshake and CONNECT exchange where there are any, plus two for each epoll `send` that goes back, of which poll has none |
| Progress.HandshakeWithoutSsl | src/bench_poll.c:585-612 | without an SSL object a handshake never moves short of a socket error; with one it answers |
| Progress.HandshakeWithoutSslHappens | src/bench_poll.c:559-583 | a granted tunnel, however the answer was cut, leads there exactly when OpenSSL has no context or no object |
| EpollTunnel.ThereAndBack | src/bench_epoll.c:157-185 | a byte sent and a `send` that fails bring a connection of the epoll engine back to where it was |
| EpollTunnel.NoEnd | src/bench_epoll.c:157-185 | for any number of moves there are calls after which a new attempt has made more and goes on |
| EpollTunnel.BoundedExactly | src/bench_epoll.c:157-185 | a bound on the moves of an attempt exists if and only if the engine is poll, or there is no CONNECT request to send |
| EpollTunnel.AttemptIsReached | src/bench_epoll.c:853-858 | start-up alone reaches such an attempt |
| EpollModel.RegisteredUnder | src/bench_epoll.c:432-474 | an existing entry is the one setup wanted to add |
| EpollModel.SetupRegistersActive | src/bench_epoll.c:404-478 | after setup the registered descriptors are exactly those of the connections active on entry, with their present masks, as many as it returns |
| EpollEngine.BenchEpoll.SetupConnectionToEpollInstance | src/bench_epoll.c:401-480 | equals the model's setup and returns the number of active connections |
| EpollEngine.BenchEpoll.HandleReadyConnection | src/bench_epoll.c:482-822 | deregistration and handler in place are the model's event step |
| EpollEngine.BenchEpoll.EpollWait | src/bench_epoll.c:890 | reports the delivered descriptors in the kernel's order, no more than asked for |
| EpollEngine.BenchEpoll.Turn | src/bench_epoll.c:876-902 | one turn of the loop is one round of the model |
| EpollEngine.BenchEpoll.Rounds | src/bench_epoll.c:876-902 | the loop is a run of the model, up to a break or an exit |
| EpollEngine.RunBenchEpoll | src/bench_epoll.c:824-925 | the reported numbers are the totals of that run, unless it exits |
| EpollTheorems.InterestAgreement | src/bench_epoll.c:421-497 | in every run each registered descriptor is the socket of exactly one connection, which is active, is the one its entry names, and has the registered mask |
| EpollTheorems.EpollTotals | src/bench_epoll.c:905-918 | the conservation and byte laws for the epoll engine |
| EpollTheorems.EpollResources | src/bench_epoll.c:905-918 | distinct sockets and exactly one release for the epoll engine |
| EpollTheorems.EpollTlsSafety | src/bench_epoll.c:524-800 | TLS safety for the epoll engine: channel, SSL object and retry offset as in the poll engine |
| EpollTheorems.EpollDialsWhom | src/bench_epoll.c:372-399 | the same for the epoll engine, with ports from 2 to 65535 |
| EpollTheorems.EpollChannels | src/bench_epoll.c:629-800 | the TLS bytes are the body sent so far, and without a tunnel so are all bytes on the wire, in every state |
| EpollTheorems.EpollIdleForever | src/bench_epoll.c:404-407 | a connection without a socket stays as it is for the rest of the run; if it is the first one the program exits with nothing changed |
| EpollTheorems.KernelCanRun | src/bench_epoll.c:890 | whatever else a run meets, there are orders in which the kernel can report its events |
| Equivalence.HandlersAgree | src/bench_epoll.c:482-822 | both handlers do the same to a reachable connection if and only if no CONNECT `send` fails |
| Equivalence.EventOrderIsImmaterial | src/bench_epoll.c:897-900 | handling the events in any order is one handler call per connection: handlers of distinct connections commute |
| Equivalence.NothingHeldBack | src/bench_epoll.c:890 | the limit given to `epoll_wait` never holds an event back |
| Equivalence.RoundEvents | src/bench_epoll.c:890-900 | a round's events are those of the active connections that are ready, once each, so as many as those and never more than were active |
| Equivalence.RoundsAgree | src/bench_epoll.c:876-902 | one round of either engine on the same inputs ends in the same world if and only if no CONNECT `send` fails in it |
| Equivalence.EnginesAgree | src/bench_epoll.c:824-925 | a run has equal states, offsets, buffers, counters and histories in both engines after every round if and only if no CONNECT `send` fails in a round that runs handlers |
| Divergence.EnginesAgreeExactly | src/bench_epoll.c:117-185 | the engines end every run alike if and only if the configuration uses no port 1 and has no tunnel the epoll engine can ask for |
| Divergence.SkipsTheConnect | src/bench_epoll.c:157-185 | two rounds from start-up, with a failed first `send`, and epoll awaits the answer to a request of which nothing was sent |
| Divergence.AskedFirstExactly | src/bench_epoll.c:552-576 | in every run the whole CONNECT request is out whenever its answer is awaited, if and only if there is none to send |
| Communicator.SendTlsData | src/communicator.c:45-100 | ends if retries do; returns `len` exactly when the data was accepted in order, -1 with a proper prefix accepted otherwise |
| Communicator.RecvTlsData | src/communicator.c:103-133 | ends if retries do; the text up to the first boundary with a header end or as much as fits, terminated, with the rest of the buffer as it was |
| Communicator.WritesAreSending | src/communicator.c:58-97 | on the same write outcomes the loop and the SENDING state send the same bytes and end alike |
| Communicator.ReadsAreReceiving | src/communicator.c:109-130 | with equal capacity and chunks the loop and the RECEIVING state hold the same text and count the same bytes |
| Communicator.FullBufferCountsAlike | src/bench_poll.c:704-710 | a full buffer counts the same in both, one event later in the automaton |
| Communicator.WantWriteDiffers | src/communicator.c:114-121 | where they part: a read that wishes to write |
| Threads.BenchWorker | src/bench2.c:20-38 | successes are the outcomes that are not negative, failures the negative ones, bytes the sum of the positive ones |
| Threads.BenchWorkerNoRacing | src/bench2.c:58-78 | successes are the positive outcomes, failures the others, bytes the sum of the positive ones |
| Threads.CountsExactly | src/bench2.c:20-70 | a worker's speed and failures are the numbers of results that are not negative and negative, or positive and not positive, and its bytes the sum of the positive ones |
| Threads.MutualExclusion | src/bench2.c:40-44 | under every schedule at most one worker is between lock and unlock |
| Threads.NothingIsLost | src/bench2.c:40-133 | under every schedule in which all workers finish, the shared totals are the sums of their counts |
| Threads.SomeoneCanStep | src/bench2.c:40-44 | the mutex never blocks everybody |
| Threads.CanFinish | src/bench2.c:131-133 | from every reachable state the workers can all finish, so the joins can return |
| Threads.SlotsHoldTheCounts | src/bench2.c:81-83 | under every such schedule each slot holds its worker's counts |
| Threads.Summary | src/bench2.c:200-205 | the loop over the slots adds them up |
| Threads.EnginesDifferByZeros | src/bench2.c:12-205 | for equal outcomes both report equal bytes and attempts, and speeds that differ by the number of zeros |
| Numbers.StrtolExactly | src/arguments.c:147-152 | `strtol` on blanks, a sign, digits and a rest: the signed number, whether there is one and whether a `long` holds it |
| Numbers.StrtolReadsDecimal | src/arguments.c:301 | `strtol` reads back what `%d` prints |
| ArgumentParsing.Arguments.constructor | src/arguments.c:16-29 | the default arguments |
| ArgumentParsing.Arguments.SetArgumentsFromUrl | src/arguments.c:256-317 | equals the model of URL splitting, its updates on refusal included |
| ArgumentParsing.Arguments.SetTargetUrl | src/arguments.c:192-222 | the checks, the trailing slash and the splitting of the positional argument |
| ArgumentParsing.Arguments.SetProxyServer | src/arguments.c:124-166 | the `--proxy` case with all its branches |
| UrlTheorems.TakenExactly | src/arguments.c:192-222 | a URL is taken if and only if it has fewer than 1024 bytes, starts with http:// or https:// letter by letter in any case, ends in '/' as stored, and its port is a positive number; what it gives, and that any other scheme or length changes nothing |
| UrlTheorems.ProxyExactly | src/arguments.c:124-164 | the option on any argument: where host and port are cut apart, what they are, and when the program ends |
| UrlTheorems.UrlWithPort | src/arguments.c:204-310 | scheme, host and port of a rendered URL come back exactly when it ends in '/' or leaves room for one; the arrays are safe exactly for short enough parts |
| UrlTheorems.UrlWithoutPort | src/arguments.c:272-315 | the scheme's default port, and the host exactly when no ':' follows |
| UrlTheorems.ProxyUncut | src/arguments.c:124-166 | what an argument that fits its array gives: the local machine for an empty host, a large port modulo 2^32 |
| UrlTheorems.ProxyRoundTrip | src/arguments.c:124-166 | for every host and port: they come back if and only if there is a host and the argument fits with a port that is an `int`, or is cut where the port would begin and that port is 80 |
| UrlTheorems.ProxyPortIsCut | src/arguments.c:126 | 125 bytes of host and ":8080" are accepted as port 8 |
| UrlTheorems.ProxyDefaultPort | src/arguments.c:128-142 | without a port, or with an empty one, the port is 80, and the host comes back if and only if it fits its array |
| Requests.HttpRequest.Append | src/request.c:54-116 | bounded concatenation keeps the array equal to the truncated whole |
| Requests.HttpRequest.Build | src/request.c:6-116 | the array holds the plain text of the request for the normalised version, as far as it takes it; errors leave it empty |
| RequestTheorems.NothingIsCut | src/request.c:54-116 | within the field limits the text has at most 1112 bytes and nothing is truncated |
| HttpReader.MessageReads | src/request.c:33-116 | a strict reading of any message of this shape succeeds if and only if the target is there without whitespace and Host is in order, and then gives back every part |
| RequestTheorems.BytesInFull | src/request.c:33-116 | the request byte by byte, for every method, version, proxy and reload |
| RequestTheorems.RequestReadsBack | src/request.c:33-116 | an HTTP/1.x request reads back to the method's name, the target, the version and the fields asked for, each spelled out, in order, if and only if its target is there without whitespace and it either has a host without whitespace and a port without a sign, or goes through a proxy as HTTP/1.0 |
| RequestTheorems.RefusedThroughProxy | src/request.c:60-89 | two requests that cannot be read: HTTP/1.1 through a proxy, and a URL with a space |
| RequestTheorems.FieldsAreTrimmed | src/request.c:82-89 | their values are unchanged if and only if no host that begins with a blank is among them |
| RequestTheorems.RequestEndsOnce | src/request.c:112-116 | CRLFCRLF occurs exactly once, at the end |
| RequestTheorems.VersionIsLowest | src/request.c:14-30 | normalisation picks the lowest version, from the given one up, that supports the request |
| RequestTheorems.RebuildIsSame | src/request.c:6-30 | building again changes neither arguments nor bytes |
| RequestTheorems.HostHeaderRoundTrip | src/request.c:82-89 | from URL to Host header to URL for every method and HTTP/1.x version: the same host and port, also by way of the bytes |
| ConnectRequest.NothingIsCutFromConnect | src/bench_poll.c:215-223 | with a host that fits its array the CONNECT request is never cut off |
| ConnectRequest.ConnectReadsBack | src/bench_poll.c:215-223 | a proxy reads it back as CONNECT host:port if and only if the host has no whitespace; the empty line is there once, at its end |
| EndToEnd.ServerReadsTheRequest | src/bench_poll.c:613-700 | in every poll run, what has been sent when the response is awaited is the CONNECT request, as a proxy reads it, and a request that reads back as the one asked for exactly if the arguments are acceptable; and it went to the proxy if there is one, and to the target otherwise |
| EndToEnd.EpollServerReadsTheRequest | src/webbench2.c:24-32 | the same for the epoll engine, which `main` starts, without a CONNECT tunnel |
| EndToEnd.EpollTunnelReadsTheRequest | src/webbench2.c:24-32 | and through a tunnel, in the runs in which no CONNECT `send` fails |

## Left out

- Sockets, `getaddrinfo`, `fcntl`, clocks, `usleep`, printing, OpenSSL internals and the SSL context object: outcomes of calls, chosen freely. A descriptor that `socket` returns is never open already; descriptor 0 counts as a failure, as the code treats it, and is not tracked further.
- The number of rounds is arbitrary where the program asks the clock.
- The return codes of the handlers, which both loops ignore; NULL checks on arguments that are never NULL.
- The two engines' textual copies of the connection structure are one class with an `engine` field. `POLLNVAL` is one of the causes of `bad`, which the poll engine alone can see.
- Edge triggering: a handled descriptor is registered anew by the next setup, so a round sees every registered descriptor that is ready.
- The event orders an `EpollRound` accepts are those `epoll_wait` can return; for any other order the model's round does nothing, and `KernelRound` excludes it.
- C `int` overflow of the running counters; they are mathematical integers.
- Memory allocation failure, thread creation failure, and the exits taken then.
- Alignment of the TLS stream behind a proxy's answer: the code stops at the status phrase and clears the buffer.
- `src/bench_select.c`, and in `src/communicator.c` everything but the two TLS loops.
- Option parsing other than `--proxy` and the positional argument.
- Text fields are sequences of characters before the NUL; a NUL inside a received stream is modelled, as `strstr` stops there.
- Connections.Connection.CleanUp: `SSL_shutdown` is not modelled, since nothing depends on what it sends.
- ArgumentParsing.Arguments.SetArgumentsFromUrl: requires that what it copies fits its arrays and that a '/' follows the scheme, because the code checks neither and reads or writes beyond them otherwise, which has no meaning in C; `UrlTheorems` says exactly which URLs fit.
- ArgumentParsing.Arguments.SetTargetUrl: requires the same of the URL it stores.
- HttpReader.ParseRequest: looks into targets, hosts and field values for whitespace, and into the Host value for its port, but not for the other characters their grammars allow.
- Communicator.SendTlsData: requires that not every call from some point on asks to be retried, since the loop does not end otherwise; so does `Communicator.RecvTlsData`.
- Equivalence.EnginesAgree: excludes refused registrations, after which the epoll program exits; so do the theorems of `Divergence`.
