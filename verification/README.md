# A verified model of the xk6-tcp socket

This project models the TCP socket object of xk6-tcp, the k6 extension that gives load-test scripts a
Node-like socket, and proves what its goroutines keep in every interleaving.

Three views of the socket are connected to each other:

* **The step machine** (`SocketMachine`). Shared state, and one program counter for each goroutine: the
  script, any number of connect goroutines, readers and writers, and whoever runs `destroy`. The loop
  goroutine and the VU context are the environment. `IsRun` and `Exec` define runs; what dial, Read, Write,
  SetReadDeadline and the handshake answer is chosen freely at each step. The theorems speak of every run.
  `Exclusion` shows that the lock and the Once agree with the program counters, `Lifecycle` that the lock
  sections refine an atomic machine (`LockMachine`), and the further modules (`Connections`, `Publication`,
  `Readers`, `TeardownReports`, `CloseEvent`, `EventOrder`, `CloseOrder`, `Buffers`, `Payloads`, `Streams`,
  `ReaderLoops`, `Totals`, `Writers`, `Accounting`, `Conservation`, `Deadlines`, `IdleTimeouts`, `Waiting`,
  `Endings`) each prove one subject. `Footprint` says what each kind of step leaves alone; `Runs` handles prefixes. `Scenarios` holds
  concrete runs in which something a caller might expect fails; where a theorem promises it under a
  hypothesis, the run is one in which that hypothesis fails.
* **The object** (`SocketObject`). A class with the fields of the source's struct and its methods, loops and
  reused arrays included. Its lock-holding methods are proved to perform the operations of the same
  `LockMachine`, its write loop to be the same fragment loop (`Fragments`) that each writer of the step
  machine is proved to be (`Writers`), and its read step to be one of the passes (`ReadPasses`) that each
  reader of the step machine is proved to consist of (`ReaderLoops`).
* **Pure parts**: decoding of written strings (`Decoding`), the millisecond arithmetic of timeouts
  (`Durations`) and metric tags (`Tags`).

Every dialled connection has an explicit place (in flight, current, in teardown, closed, lost), every pooled
buffer too (pool, reader, loop, queue, handler). History in the state (accepted and started calls, wire
fragments, chunks read) lets the theorems speak about whole runs. Flags such as `revived` and `leaks` are
proved to mean that the run contains a step of the named kind (`Runs.FlagsMean`, `Connections.LeaksMean`,
`Runs.ReadyMeans`).

## What is assumed of the environment

* The mutex, the Once, the unbuffered channel and the child context behave as Go documents them.
* The task queue is FIFO and queueing does not block; metric pushes do not block and are dropped once the VU
  context is done.
* Read and Write return between zero and the length of their buffer; n bytes reported by Write reached the
  connection, also when it returns an error.
* Read reports a timeout only while its connection has a deadline.
* A Read that returns n bytes leaves the rest of its buffer as it was; one that returns none changes nothing.
* A lock section that makes no call, each unlocked field access and each atomic addition is one step.

## Where the code differs from its documentation

* README.md line 119 of the repository lists `opening` as a state a script can see. The lock is held
  throughout resolve and dial, so no call of `ready_state` ever returns it (`Lifecycle.NeverSeesOpening`).
* A connect does not check for `destroyed`. One that starts after destroy reopens the socket
  (`Scenarios.ReopensAfterDestroy`), and its connection is never closed (`Connections.AbandonedForever`).
  `Lifecycle.DestroyedIsFinal` gives the exact condition under which `destroyed` is final, and
  `Connections.AllClosedOnce` the one under which every connection is closed. The same reopening lets a read
  failure caused by teardown be reported (`Scenarios.ReportsTeardownWhenReopened`), which otherwise never
  happens (`Readers.TeardownIsSilent`): it is reported exactly when the last connect or teardown section
  before the reader's re-check was a successful connect (`TeardownReports.TeardownIsReportedIff`).
* The state can be `disconnected` with a connection set: when SetReadDeadline fails in dial
  (`Scenarios.DisconnectedWithConnection`), and when a connect fails while an earlier connection is set
  (`Scenarios.DisconnectedByFailedReconnect`); exactly then (`Lifecycle.DisconnectedWithConnectionIff`). A
  reader that looks at the state then goes on to destroy the socket (`Scenarios.DestroyedByFailedReconnect`);
  besides destroy() and reads that end the stream, nothing else does (`IdleTimeouts.TeardownIsAskedIff`).
* Two connects give a socket two readers, which share one read buffer. The second reader's Read can replace
  what the first has not copied yet, so that the `data` handler is given bytes of the other connection
  (`Scenarios.PayloadIsOverwritten`). `Payloads.PayloadIsWhatWasReadIff` says exactly when a payload is what its
  own Read returned.
* setTimeout(0) can be undone by a reader that took its snapshot before
  (`Scenarios.TimesOutWhenDisabled`); `Deadlines.DeadlineFollowsTimeoutIff` says exactly when deadline and
  timeout agree. A timeout above 9223372036854 ms wraps (`Durations.ExactUpToLongest`).
* An explicit destroy can get `close` queued before `connect` (`Scenarios.CloseBeforeConnect`);
  `CloseOrder.CloseBeforeConnectIff` says exactly when. What is accepted before any destroy has begun always
  comes before `close` (`CloseOrder.AcceptedBeforeDestroy`).
* Firing an event after the loop has exited blocks the caller, even the script, for as long as the VU context
  lives (`Scenarios.ScriptIsOrphaned`, `Waiting.OrphansWaitForTheVu`).
* The `tcp_timeouts` metric is registered (tcp/metrics.go line 45) but nothing pushes to it.
* Write samples carry VU and operation tags only (tcp/socket_write.go lines 106 and 110), although index.d.ts
  line 178 promises the socket's and connection's as well (`Tags.SocketTagIsMissing`); the two agree exactly
  under the condition of `Tags.WriteTagsAsDocumentedIff`.

## Model

| member | source | states |
|---|---|---|
| Exclusion.MutualExclusion | tcp/socket_connect.go:87-114 | in every run no two goroutines are inside lock sections, and no two inside the function given to the Once |
| Runs.FlagsMean | tcp/socket_connect.go:87-94 | the flags used as hypotheses hold exactly when the run contains the step they name: a connect on a destroyed socket, a connect over a set connection, a positive setTimeout, a destroy() call, a read ending the stream, a `close` that finds no handler, a failing SetReadDeadline |
| Runs.ReadyMeans | tcp/socket_on.go:42-51 | a reader is recorded as ready exactly when a data handler was registered at the step that started it |
| LockMachine.AlwaysSettled | tcp/socket_state.go:12-28 | in the atomic machine no completed sequence of lock sections ends in `opening`, `open` implies a connection, `destroyed` implies none, a connection implies connectTime was set |
| Lifecycle.Refines | tcp/socket_connect.go:87-173 | after every run the fields seen at lock release are those of the atomic machine after the run's completed lock sections, and satisfy its invariant |
| LockMachine.StrandedIff | tcp/socket_connect.go:94-110 | after any sequence of lock sections, `disconnected` with a connection set holds if and only if the last connect failed to arm what it had published, or failed while an earlier connection was set, and no teardown followed |
| Lifecycle.DisconnectedWithConnectionIff | tcp/socket_connect.go:87-113 | the same over runs: with the lock free, exactly when the completed lock sections of the run are such a sequence |
| Lifecycle.OpenIff | tcp/socket_connect.go:161-162 | with the lock free the socket is open exactly when the last connect or teardown section was a successful connect |
| Lifecycle.NeverSeesOpening | tcp/socket_state.go:12-17 | no `ready_state` call of any run returns `opening` |
| Lifecycle.DestroyedIsFinal | tcp/socket_connect.go:208-216 | a destroyed socket stays destroyed to the end of the run if and only if no later connect takes the lock |
| Lifecycle.TornDownOnce | tcp/socket_connect.go:208-234 | however many destroyers race, the run contains exactly one teardown section once one has happened, and never more |
| Connections.NeverClosedTwice | tcp/socket_connect.go:175-226 | no connection is ever closed twice, whether by a failed handshake or by destroy |
| Connections.AllClosedOnce | tcp/socket_connect.go:139-226 | when teardown is over and the lock free, every connection ever dialled has been closed exactly once if and only if none was published over another or after teardown had taken its own |
| Connections.LeaksMean | tcp/socket_connect.go:161-163 | the condition of AllClosedOnce is exactly that the run contains such a publication step |
| Connections.NoLeakIfConnectsAreApart | tcp/socket_connect.go:87-116 | if no connect takes the lock while a connection is set or the state is destroyed, every connection is closed exactly once by the end of teardown |
| Connections.AbandonedForever | tcp/socket_connect.go:161-162 | a connection current or overwritten when teardown is over is never closed in any continuation |
| Publication.Always | tcp/socket_connect.go:139-173 | a new connection stays with its connect goroutine until the lock is released; readers hold only released ones |
| Readers.TeardownIsSilent | tcp/socket_read.go:43-92 | in runs where no connect takes the lock on a destroyed socket, a read on a connection already closed causes no accepted error or timeout event and no tcp_errors sample |
| TeardownReports.DeadReportsAccounted | tcp/socket_read.go:63-92 | error reports of reads on closed connections, made or pending, are one for one the fatal results re-checked while the socket is open |
| TeardownReports.DeadTimeoutsAccounted | tcp/socket_read.go:77-84 | likewise for timeouts of closed connections, accepted, dropped or pending |
| TeardownReports.TeardownIsReportedIff | tcp/socket_read.go:63-92 | a read on a closed connection is reported if and only if the run re-checks a fatal result of one when the last connect or teardown section was a successful connect |
| TeardownReports.TeardownTimesOutIff | tcp/socket_read.go:63-84 | a closed connection times out under the same exact condition |
| Readers.OneLateSend | tcp/socket_read.go:43-92 | under the same hypothesis a reader completes at most one data, timeout or error send after teardown took the connection |
| Readers.ReaderWindsDown | tcp/socket_read.go:11-31 | after that point every step of a reader uses up a bounded distance to its end |
| CloseEvent.AtMostOnce | tcp/socket_connect.go:228-229 | `close` is accepted at most once in every run |
| CloseEvent.ExactlyOnce | tcp/socket_connect.go:210-233 | with the handler registered before any destroy began and the VU live, `close` has been accepted exactly once when teardown is over |
| CloseEvent.ExactlyOnceUnlessUnhandled | tcp/socket_on.go:42-93 | with the VU live, after teardown `close` was accepted once, or not at all exactly when the run contains the step in which it finds no handler |
| EventOrder.HandledInAcceptanceOrder | tcp/socket_loop.go:9-26 | handlers start in the order in which the loop accepted their calls; nothing is lost or duplicated between |
| EventOrder.ConnectComesFirst | tcp/socket_connect.go:115-119 | a connect goroutine's `connect` precedes every event sent by the reader it starts |
| EventOrder.ReaderCloseComesLast | tcp/socket_read.go:11-31 | when a reader runs teardown its `close` follows everything it sent |
| CloseOrder.AcceptedBeforeDestroy | tcp/socket_connect.go:210-229 | any call accepted while no destroy had begun precedes every `close` |
| CloseOrder.CloseBeforeConnectIff | tcp/socket_connect.go:112-119 | an accepted `close` precedes the `connect` of a connect goroutine if and only if, at the step that accepted the close, that goroutine had not been started or was still on the way to handing over its `connect` |
| Buffers.SomewhereAlways | tcp/socket_read.go:49-58 | a pooled buffer is never dropped: it is in the pool, with a reader, at the loop, queued, or in the handler |
| Buffers.OnlyOnePlace | tcp/socket_on.go:42-93 | and in only one of these, with one thread, one queue slot, one pool entry, so cleanup runs once |
| Buffers.PayloadsAreStable | tcp/socket_read.go:49-58 | from the copy until the handler returns a payload equals the contents of its buffer |
| Payloads.PayloadIsWhatWasReadIff | tcp/socket_read.go:42-58 | every accepted payload was copied from what one Read of its sender returned, and equals it if and only if the Reads of others between that Read and the copy leave those bytes of the shared buffer as they were |
| Payloads.CopyIsExactIff | tcp/socket_read.go:42-52 | the same for every copy, accepted or not |
| Payloads.SpoiltIff | tcp/socket_read.go:42-52 | the payload of a copy differs from its Read exactly when the copy is spoilt: Reads of others since that Read have changed those bytes |
| Payloads.PayloadIsWhatWasRead | tcp/socket_read.go:42-58 | if no Read returns bytes while another reader has a result it has not copied, every accepted payload is what its own Read returned |
| Payloads.OneReaderNeverOverwrites | tcp/socket_connect.go:118-119 | a run with a single reader meets that condition |
| Streams.InOrder | tcp/socket_read.go:43-58 | under the condition of PayloadIsWhatWasRead, the accepted `data` payloads of a reader are an in-order subsequence of its chunks |
| Streams.ReadsInOrder | tcp/socket_read.go:43-58 | without any condition, the reads behind the accepted payloads, one for each, are an in-order subsequence of all its reads |
| Streams.NothingSkippedIff | tcp/socket_read.go:43-58 | with a data handler since the reader's start and a live VU, the accepted payloads and the chunk in hand are all the reader read, in order, if and only if no accepted payload comes from a copy that Reads of others had spoilt |
| Streams.NothingSkipped | tcp/socket_read.go:43-58 | so under the condition of PayloadIsWhatWasRead only the chunk in hand can be missing |
| Streams.HandlersGetTheStream | tcp/socket_loop.go:16-25 | from Read to handler, under the same conditions: the payloads of started handlers, then those queued, then the one at the loop, then the chunk in hand, are what the reader read; the handlers were given a prefix of it |
| Streams.ShareOfTotal | tcp/socket_read.go:47 | a reader's share of totalRead is the length of its chunks, less the one not yet added |
| ReaderLoops.EveryReaderIsTheLoop | tcp/socket_read.go:11-93 | every reader of every run has made passes that follow one another as the loop's do, and has fired and read exactly what they say, plus what the pass under way has contributed |
| ReaderLoops.BetweenPasses | tcp/socket_read.go:11-31 | a reader between passes, or past its last, has fired exactly the events and read exactly the chunks of its passes |
| Totals.CountersAreSums | tcp/socket_base.go:127-133 | for any number of threads and any interleaving the shared byte counters are the sums of the threads' own contributions |
| Totals.WriterProjection | tcp/socket_write.go:78-99 | projecting the successful wire fragments on writer i gives exactly the counted prefix of its data; everything it sent is a prefix too |
| Writers.EveryWriterIsTheLoop | tcp/socket_write.go:64-113 | every writer of every run got answers a fragment loop can get, sent what they carried, and if it ended, counted all its data exactly when no answer stopped it |
| Writers.NoPartialWrites | tcp/socket_write.go:101-108 | if every Write obeys the io.Writer contract, tcp_partial_writes stays zero in every run |
| Writers.NeverTwoConnections | tcp/socket_write.go:65-68 | a writer keeps to the connection it copied at its start: its fragments never spread over two connections |
| Fragments.ShortOnlyByLast | tcp/socket_write.go:80-99 | the counted bytes fall short of the wire only by what a last, failing call took |
| Fragments.SuccessIsComplete | tcp/socket_write.go:80-112 | the loop ends with all bytes counted exactly when nothing stopped it, and then all are on the wire |
| Fragments.FewCalls | tcp/socket_write.go:80-99 | the loop makes at most one call for each byte |
| Fragments.NeverPartial | tcp/socket_write.go:101-108 | with all-or-error writers a write counts nothing or everything, in at most one call |
| Accounting.ErrorsAccounted | tcp/socket_on.go:95-116 | with the VU live tcp_errors plus reports under way equals failed connects, failed preparations and fatal reads while open (so failed writes add nothing), and accepted error events never exceed tcp_errors |
| Accounting.ReadsAreChunks | tcp/socket_read.go:44-47 | tcp_reads plus reads not yet counted is the number of non-empty reads |
| Accounting.ReadsBoundTotal | tcp/socket_read.go:43-47 | with no read step under way, tcp_reads <= totalRead <= 4096 * tcp_reads |
| Accounting.OneDuration | tcp/socket_connect.go:213-226 | at most one tcp_socket_duration sample, only after connectTime was set |
| Conservation.FailuresAreSteps | tcp/socket_on.go:95-116 | the failures ErrorsAccounted speaks of are, one for one, the run's failing connect, preparation and read steps |
| Conservation.ConnectsAccounted | tcp/socket_connect.go:87-124 | with the VU live, connects started = tcp_sockets + failed connects + connects at work |
| Conservation.WritesAccounted | tcp/socket_write.go:64-113 | with the VU live, writes started = tcp_writes + writes rejected for want of a connection + writes at work, and tcp_partial_writes is the number of writers that ended after a non-empty strict prefix |
| Conservation.DurationsAccounted | tcp/socket_connect.go:213-226 | with the VU live, each connection teardown takes yields exactly one tcp_socket_duration sample, and nothing else does |
| Deadlines.DeadlineIsLastSet | tcp/socket_timeout.go:27-37 | in every run a connection has a deadline exactly when its last successful SetReadDeadline, by dial, setTimeout or a reader, set one |
| Deadlines.DeadlineFollowsTimeoutIff | tcp/socket_read.go:33-40 | in every run, whatever failed, with the lock free, deadline and timeout agree if and only if that last SetReadDeadline set a deadline exactly when the last setTimeout asked for one |
| Deadlines.DeadlineFollowsTimeout | tcp/socket_read.go:33-40 | in a run without a failing SetReadDeadline, with the lock free, the current connection has a deadline exactly when the timeout is positive, if and only if its last update was not a stale arming |
| Deadlines.NoTimeoutEvents | tcp/socket_timeout.go:14-40 | no positive setTimeout, no timeout event |
| IdleTimeouts.TeardownIsAskedIff | tcp/socket_read.go:11-31 | for every run: teardown has been asked for if and only if the script called destroy(), a reader judged a read that ended the stream, or a reader looked at the state when the last connect had failed while a connection was set |
| IdleTimeouts.TimeoutsKeepItOpen | tcp/socket_read.go:77-84 | without destroy(), a read ending the stream, or a connect that gives up while a connection is set, any number of timeouts leaves the socket, while it has a reader, visibly open; if moreover no connect starts over a set connection, the state itself never leaves open |
| Waiting.WaitingGoesDown | tcp/socket_connect.go:87-119 | whoever is waited for ranks strictly below the waiter, so there is no cyclic wait |
| Waiting.NobodyToWaitFor | tcp/socket_on.go:64-92 | a thread that waits for nobody can step, is finished, or is an orphaned sender |
| Waiting.EveryWaitEnds | tcp/socket_connect.go:210-233 | from every thread at most three waits lead to one that can step, has finished, or is an orphaned sender |
| Waiting.TeardownIsNeverOrphaned | tcp/socket_loop.go:9-26 | the thread inside teardown never faces a loop that has exited with the VU live |
| Waiting.OrphansFollowTeardown | tcp/socket_connect.go:231-232 | a sender is orphaned only after teardown cancelled the socket context |
| Waiting.OrphansWaitForTheVu | tcp/socket_on.go:64-92 | an orphaned sender does not move for as long as the VU context lives |
| Endings.AllCanEnd | tcp/socket_on.go:64-92 | once the VU context is done, from every reachable state some continuation finishes every connect, reader, writer and teardown and returns the script to its own code |
| Endings.AlwaysCanEnd | tcp/socket_on.go:84-91 | so from every reachable state all threads can come to their end, at the latest with the VU context |
| Scenarios.ReopensAfterDestroy | tcp/socket_connect.go:87-113 | a run ending open, after teardown, with a connection nobody closes |
| Scenarios.DisconnectedWithConnection | tcp/socket_connect.go:161-169 | a run ending `disconnected` with an unclosed connection set |
| Scenarios.DisconnectedByFailedReconnect | tcp/socket_connect.go:96-101 | a run ending `disconnected` with an open connection set, no SetReadDeadline having failed |
| Scenarios.DestroyedByFailedReconnect | tcp/socket_read.go:16-30 | the same run continued: the socket is destroyed with no destroy() call and no read ending the stream |
| Scenarios.PayloadIsOverwritten | tcp/socket_read.go:43-52 | a run with two readers in which the accepted payload is not what its sender read |
| Scenarios.TimesOutWhenDisabled | tcp/socket_read.go:18-40 | a run in which the reader fires `timeout` while the timeout is zero |
| Scenarios.ReportsTeardownWhenReopened | tcp/socket_read.go:63-92 | a run in which a read failing because of destroy is counted in tcp_errors |
| Scenarios.ScriptIsOrphaned | tcp/socket_write.go:30-35 | a run in which a failing write after destroy leaves the script waiting for an exited loop |
| Scenarios.CloseBeforeConnect | tcp/socket_connect.go:115-116 | a run in which `close` is accepted before `connect` |
| SocketObject.Socket.constructor | tcp/socket_base.go:73-84 | a new socket is disconnected, in the start state of the atomic machine, with a read buffer of 4096 bytes of its own |
| SocketObject.Socket.On | tcp/socket_on.go:18-32 | registers the event of that name; other names change nothing |
| SocketObject.Socket.ConnectExecute | tcp/socket_connect.go:87-124 | performs exactly one atomic operation, decided by where it failed; a dialled connection is closed exactly when its handshake failed, and armed exactly when the timeout is positive |
| SocketObject.Socket.Connect | tcp/socket_connect.go:31-50 | the outcome is announced by exactly one `connect`, with one reader started, or by one reported `error`, with none |
| SocketObject.Socket.Destroy | tcp/socket_connect.go:208-234 | the first call is the atomic teardown, closes the connection once, fires `close`, cancels; later calls change nothing |
| SocketObject.Socket.SetTimeout | tcp/socket_timeout.go:14-40 | is the atomic timeout operation, stored even when SetReadDeadline fails; the deadline follows the timeout when it succeeds |
| SocketObject.Socket.WriteExecute | tcp/socket_write.go:64-113 | success puts exactly the data on the wire; failure reports the counted strict prefix; partial and total write samples as counted |
| SocketObject.Socket.WriteFragments | tcp/socket_write.go:78-99 | the loop terminates with admissible answers, having put on the wire and counted what they say |
| SocketObject.Socket.ReadLoopStep | tcp/socket_read.go:33-93 | one pass as the readers of the step machine make them, whatever others do to the state before the re-check and to the read buffer before the copy: bytes counted, what is copied owed to the data handler if there is one (and it is what was read unless the buffer was overwritten), the pass's events fired to their handlers; buffers pending from earlier reads keep their contents |
| SocketObject.Socket.HandlerReturned | tcp/socket_on.go:67-70 | the buffer of a finished handler goes back to the pool once, the others stay |
| Durations.ExactUpToLongest | tcp/socket_timeout.go:18-25 | for positive 64-bit milliseconds the stored duration is the true product exactly up to 9223372036854, and then positive |
| Durations.WrapsToDisabled | tcp/socket_timeout.go:18-25 | one millisecond more is stored as a negative duration |
| Decoding.DecodeUndoesEncode | tcp/socket_write.go:153-156 | base64 and base64url, padded and unpadded: decoding inverts encoding for every byte sequence |
| Decoding.EncodeUndoesDecode | tcp/socket_write.go:153-156 | an accepted text is the encoding of what it decodes to if and only if the spare bits of its last digit are zero |
| Decoding.RoundTrip | tcp/socket_write.go:153-156 | newlines anywhere in the text do not change the result |
| Decoding.DecodersAgree | tcp/socket_write.go:164-171 | text accepted by the padded and the unpadded decoder decodes identically |
| Decoding.OrderDoesNotMatter | tcp/socket_write.go:164-171 | trying the padded decoder first gives the same result on every string, failures included |
| Decoding.Base64UrlRoundTrip | tcp/socket_write.go:164-171 | the base64url path inverts both the padded and the unpadded encoding |
| Decoding.HexDecodesExactly | tcp/socket_write.go:157-158 | a text decodes to given bytes if and only if it is their hex encoding in some mixture of cases |
| Decoding.WrittenTextIsWhatWasMeant | tcp/socket_write.go:149-162 | under each supported encoding name in any case the standard text form of any data decodes to that data; every other name is reported as unsupported for all strings |
| Tags.SortedIsUnique | tcp/metrics.go:57 | a set of keys has one sorted enumeration, so the fold order does not depend on map iteration |
| Tags.AddToTagSet | tcp/metrics.go:50-64 | the sorted fold equals the right-biased override, one `With` for each key in sorted order |
| Tags.SocketTags | tcp/socket_metrics.go:14-31 | every name resolves by the priority ip, port and host, connect tags, socket tags, proto, VU tags |
| Tags.WriteTags | tcp/socket_write.go:106-110 | the samples of a write carry the VU's tags overridden by the operation's |
| Tags.WriteTagsAsDocumentedIff | tcp/socket_write.go:106-110 | that agrees with the documented layering if and only if each socket and connection tag the operation does not override is already, with the same value, among the VU's |
| Tags.SocketTagIsMissing | tcp/socket_write.go:106-110 | one socket tag with which the two differ |

## Left out

- SocketObject.Socket.WriteExecute: does not model 64-bit wrap-around of the byte counters, because it would take more than 2^63 bytes on one socket.
- SocketObject.Socket.Destroy: fires without blocking and keeps the events in a sequence; hand-off, loop and cancellation are in the step machine.
- Streams.NothingSkippedIff: asks for the data handler when the reader starts, because what is read before a handler is registered is dropped by design.
- Endings.AllCanEnd: says that a continuation exists; that the scheduler takes it and that the network answers is not modelled.
- Decoding.DecodeString: takes the Go string's bytes; the export of script values and of ArrayBuffers to bytes is foreign runtime code.
- The endless `for` of the read loop as a method: its iterations are ReadLoopStep, its runs are those of the step machine.
- Resolution, dialling, TLS contents, SNI and ALPN: only success or failure, and whether the raw connection was closed.
- Promises, accessor binding, connectPrepare's type dispatch, error message texts, logging, metric registration: no state of the socket.
- The tcp_socket_resolving and tcp_socket_connecting trends and all sample timestamps and values: time is not modelled.
- The internals of the k6 task queue, buffer pool and sample channel: assumed as stated above.
- Go memory-model races on unlocked fields such as connectOpts: each access is one step.
- The echo server, test scripts and examples: test support.
