# A model of the MCP C++ library's concurrent core, with proofs

The library speaks the Model Context Protocol: JSON-RPC 2.0 over standard input
and output, or over HTTP with server-sent events. This project models the parts
where its threads race and its bytes are cut up, and proves what they keep.

* **Session** (`Session*.dfy`, `TwoSessions.dfy`): the dispatcher behind every
  client and server. `SessionMachine` is a transition system with one action per
  region under `pending_mu_`, per access to an atomic and per call made outside the
  locks; a region that reads `closed_` while it holds the mutex takes two, because
  `closed_` can be stored in between. `SessionInvariants` and `SessionTheorems` say
  what every run keeps, `SessionSteps` who may touch the map and that a promise is
  settled once, `SessionClosing` when the session is closed for good and why
  the timeout thread can be joined, `SessionShutdown` what close() leaves when it
  returns, `SessionHook` what the transport's `on_close` hook leaves behind,
  `SessionObject` is the object whose methods perform the actions, `TwoSessions` joins
  two sessions by a FIFO each way, and `SessionCalls` follows one call through them.
* **JSON-RPC codec and content codecs** (`Json.dfy`, `JsonRpc.dfy`, `Content.dfy`):
  round trips, and exactly which JSON values are accepted, and as what.
* **Byte streams**: `Sse` is `drain_sse` on values, `SseBuffer` the loops that
  compute it, `SseStandard` the interpreter of sections 9.2.5 and 9.2.6 of the
  WHATWG HTML standard, `SseWire` the server's writer against the client's reader,
  `SseEvents` which events reach the callback and the other ways to write a line,
  `SseMark` streams behind a byte order mark.
  `Stdio` is newline framing: the reader's byte loop and the writer's partial writes.
* **Pagination** (`Decimal.dfy`, `Pagination.dfy`): cursors in 64-bit arithmetic.
* **Tasks** (`Task*.dfy`): `TaskRegions` is what each lock region of the task store
  does, `TaskStoreObject` the object, `TaskRuns` every interleaving of handlers,
  workers, cancellers, collection and shutdown, `TaskTheorems` what holds of runs.
* **HTTP session transport**: `HttpGate` (the start gate), `HttpRoutes` (replies to
  POST requests), `HttpStream` (the queue, the GET streams and the client's end).

A machine's transition functions (`DoPost`, `DoCreate`, ...) follow the code; what
is proved is in the lemmas about them. Where the code updates fields, a class does
too, and its methods are proved against those functions. `Runs(s, acts)` says that a
list of actions is possible from `s`, `End(s, acts)` is where it leads. Fields marked
as history record what happened and influence nothing.

Some results are about what the code does not keep; the lemma named first has the
exact condition, the second an input or a run that meets it.

* A request can be parked between the `on_close` hook's drain and its store of
  `closed_` and outlive the hook, exactly when the session is not shut (`HookGap`,
  `GapIsReached`); the timeout thread gone, it waits for a drain, a response or its
  own caller and never times out (`StaysBehind`).
* A `close()` that runs before `start()` seals nothing; a session is closed for good
  exactly when it is shut (`ShutExactly`, `CloseBeforeStart`).
* A worker can outlive `close()`, despite the comment at `src/session.cpp:329-331`:
  exactly workers for frames received after its wait can (`OnlyLateWorkers`,
  `WorkerMayOutlive`). And when the `on_close` hook comes first, no `close()` closes
  the transport (`TransportClosedOnce`).
* A parked POST is never answered nor told of the close exactly when `close()` is past
  its drain and no `send()` under way carries its id; the host's own 30-second wait
  then ends it (`PostAfterCloseStarves`, `PostAfterDrain`).
* Order across the start gate is kept exactly when no frame passes while earlier ones
  wait and none is dropped (`OrderKept`, `MayOvertake`).
* `shutdown()` returns over a live task exactly when a handler has not yet counted its
  worker (`ShutdownReturns`, `ShutdownMayLeave`); despite its declaration comment
  (`src/server.cpp:140-143`) it marks no task failed.
* Every offset gives a well-formed page exactly when size plus page size stays within
  2^64 (`SlicesWellFormed`).
* The event-stream reader agrees with the standard exactly when no event's data starts
  with an empty value (`AgreesWithStandard`), and behind a byte order mark, besides,
  the first event must not start with a data line (`AgreesBehindMark`,
  `ByteOrderMarkHidesData`).

## Model

| member | source | states |
|---|---|---|
| `SessionInvariants.InvStep` | src/session.cpp:113-518 | every action of every thread keeps the invariant: accounting of ids, lock and program counters, deadlines, verdicts, waits, and what each stage of close() has achieved |
| `SessionInvariants.AccountCall` | src/session.cpp:192-267 | register_pending: a closed session, a duplicate, a refused send or a response that came first leaves the id in exactly one place |
| `SessionInvariants.AccountReceive` | src/session.cpp:429-460 | handle_response takes at most the one entry it found, and takes it whole |
| `SessionInvariants.AccountTime` | src/session.cpp:488-501 | an expiry moves exactly the due entries from the map to the timeout thread's hands |
| `SessionInvariants.AccountClose` | src/session.cpp:507-518 | a drain moves every parked entry to one closer's hands |
| `SessionInvariants.OrderlyTime` | src/session.cpp:466-505 | the timeout loop waits until the earliest deadline, untimed only over an empty map, and times out nothing early |
| `SessionInvariants.OrderlyClose` | src/session.cpp:124-159 | after Mark, Drain and the final notify of close() what each promises holds, and goes on holding |
| `SessionTheorems.InvRun` | src/session.cpp:113-518 | the invariant holds at the end of every run |
| `SessionTheorems.ExactlyOnePlace` | include/mcp/session.hpp:179-188 | in every interleaving an issued id is entering, parked, held by one remover or settled once: exactly one of resolve and reject |
| `SessionTheorems.ExtendsRun` | src/session.cpp:452-459 | verdicts given and promises settled are never taken back or changed |
| `SessionSteps.MapGuarded` | src/session.cpp:214-240 | while pending_mu_ is held the map is left alone but by the second half of the holder's own region |
| `SessionSteps.SettledOnce` | src/session.cpp:452-459 | in no run is a promise settled twice, and it is settled if and only if the run settles it |
| `SessionTheorems.ShutRun` | src/session.cpp:214-239 | once sealed the map stays empty, and each later request is refused with "session closed" or still on its way there |
| `SessionClosing.ShutExactly` | src/session.cpp:214-239 | no run can ever park a request again if and only if the map is empty, closed_ is set, no caller read it clear, and start() is past its store |
| `SessionClosing.CloseSeals` | src/session.cpp:124-138 | from the drain of any close() that begins once start() has cleared closed_, whatever close() calls came earlier, the map stays empty in every continuation and every later request is refused |
| `SessionHook.HookGap` | src/session.cpp:40-49 | from the on_close drain on, something can be parked that is still there when the hook has stored closed_ and finished, if and only if the session is not shut |
| `SessionHook.LeavesExactly` | src/session.cpp:254-265 | a step takes a parked request out if and only if it is a drain, a response to it, its own caller after a refused send, or an expiry at or after its deadline |
| `SessionHook.LeavesTold` | src/session.cpp:452-518 | a parked request that leaves is told why: closed session, closed transport, the very result or error of the response, refused send, or timeout |
| `SessionHook.StaysBehind` | src/session.cpp:40-49 | once the timeout thread has left, a request still parked stays parked, however far the clock moves, until a drain, a response or its own caller takes it |
| `SessionHook.CloseRejects` | src/session.cpp:134-138 | the drain of close() takes such a request out, to be told "session closed" |
| `SessionHook.GapIsReached` | src/session.cpp:40-49 | a run reaches the gap: the hook has finished, the timeout thread is gone and a request is parked |
| `SessionClosing.CloseBeforeStart` | src/session.cpp:113-138 | a close() before start() seals nothing: start() clears closed_ again and requests can be parked |
| `SessionClosing.TimerJoins` | src/session.cpp:154-158 | after the final notify of any close() that begins once start() has cleared closed_, a second one included, the timeout thread never waits again, and its own steps lead it to its exit from wherever it stands |
| `SessionClosing.TimeoutsOnTime` | src/session.cpp:466-503 | in every run a waiting timeout thread is up by every parked deadline, and no request is timed out before its own |
| `SessionClosing.DeadlineOf` | src/session.cpp:203-205 | a request is due its own timeout after now, or the session default after now for a zero timeout |
| `SessionClosing.NotTimedOutBefore` | src/session.cpp:203-205 | in every run after a call with timeout t, a timeout of it comes no earlier than t after the call, or the default after it for a zero |
| `SessionShutdown.WaitsExactlyRun` | src/session.cpp:468-478 | unless a refused send takes its entry back, which notifies nobody, a waiting timeout thread waits for exactly the earliest parked deadline, or untimed over an empty map |
| `SessionShutdown.ExpiryFindsDue` | src/session.cpp:478-496 | a wait for exactly the earliest deadline that runs out finds a request due |
| `SessionShutdown.TransportClosedOnce` | src/session.cpp:130-152 | of any number of close() calls on a started session at most one closes the transport, and none if and only if the flag was set before or the on_close hook sets it first |
| `SessionShutdown.OnlyLateWorkers` | src/session.cpp:144-147 | a worker at any time after the wait of close() is at work on a frame received after that wait |
| `SessionShutdown.WorkerMayOutlive` | src/session.cpp:329-346 | a run in which close() returns over a worker still in its handler: its frame came after the wait |
| `SessionShutdown.CloserTellsAll` | src/session.cpp:507-518 | a close() past its wait, or an on_close hook that has stored the flag, has settled every promise it took out, for good |
| `SessionShutdown.TimerHasToldRun` | src/session.cpp:497-503 | in every run the timeout thread has settled all it has ever expired, except while it is about to |
| `SessionShutdown.JoinedIsOver` | src/session.cpp:154-158 | once close() has joined it, the timeout thread of a running session never runs again |
| `SessionObject.SoonestDeadline` | src/session.cpp:474-477 | the loop finds a deadline that is parked and that none precedes |
| `SessionObject.EraseDue` | src/session.cpp:487-496 | the loop erases exactly the entries due and lists each once |
| `SessionObject.Walk` | src/session.cpp:514-517 | the loop over the drained map meets every entry once |
| `SessionObject.Session.Begin` | src/session.cpp:196-205 | the next id is taken; its deadline is its own timeout from now, or the default one for a zero |
| `SessionObject.Session.ReadClosed` | src/session.cpp:215-216 | closed_ is read under the mutex |
| `SessionObject.Session.Park` | src/session.cpp:216-246 | the rest of the region: parked without a verdict, or refused as closed or as duplicate, each with its own verdict |
| `SessionObject.Session.TakeBack` | src/session.cpp:254-265 | after a refused send the entry is taken back unless it has gone |
| `SessionObject.Session.TakeForResponse` | src/session.cpp:439-450 | a response takes exactly its own entry, or nothing |
| `SessionObject.Session.NextWake` | src/session.cpp:468-478 | the loop head chooses an untimed wait or the earliest deadline |
| `SessionObject.Session.ExpireDue` | src/session.cpp:478-496 | a wait that ran out expires what is due at that reading of the clock |
| `SessionObject.Session.CancelAll` | src/session.cpp:507-518 | the map is swapped out and every entry is the canceller's |
| `SessionObject.Session.MarkClosed` | src/session.cpp:130-132 | the flag is set, and the call that set it is told that it is first |
| `TwoSessions.CleanArrives` | src/session.cpp:284-319 | a frame a session sends is parsed by its peer as the message it was |
| `TwoSessions.NetStep` | src/session.cpp:192-460 | every step of either session, and every delivery, keeps the link between requests sent, workers, replies and verdicts on both sides |
| `TwoSessions.EndToEnd` | src/session.cpp:297-460 | a promise given a success is given the JSON the peer's handler returned for that very id, method and params, in a handler run that is the only one for the id |
| `TwoSessions.ErrorEndToEnd` | src/session.cpp:355-409 | a promise given a peer error has that error from the one handler run for that id, method and params: an Error thrown arrives whole, code and data; no handler is -32601, a JSON exception -32602, any other -32603 |
| `SessionCalls.CallCompletes` | src/session.cpp:192-460 | for every method, params and end of the handler two fresh sessions have a run in which the caller is told just that end |
| `SessionCalls.NotifyArrives` | src/session.cpp:269-282 | a notification sent is one frame, read by the peer as a notification with that method and those params |
| `TwoSessions.LateResponseIgnored` | src/session.cpp:439-451 | a response to a request that timed out, was cancelled or was answered changes nothing and settles no other request |
| `JsonRpc.IdRoundTrip` | src/protocol.cpp:70-94 | an id, string or 64-bit integer, is read back as it was written |
| `JsonRpc.CanonicalInjective` | src/protocol.cpp:63-68 | two ids with one canonical key are the same id, across both kinds |
| `JsonRpc.RoundTrip` | src/protocol.cpp:100-198 | every request, notification and response parses back to itself if and only if its params are not an explicit null, which is read as absent |
| `JsonRpc.ParsedIsStable` | src/protocol.cpp:176-198 | whatever parses is well typed and survives any further trip through the codec |
| `JsonRpc.AcceptedExactly` | src/protocol.cpp:74-198 | a JSON value is accepted if and only if its version is 2.0 and, as a call, its method is a string and its id one, or, as a response, it has exactly one of result and error, well formed; and it is then read as the message it carries |
| `JsonRpc.SentConforms` | src/protocol.cpp:100-198 | what is sent conforms, and carries the message |
| `Json.CutTowardZero` | src/protocol.cpp:547-571 | a fractional number read as an integer is cut toward zero |
| `Content.ListRoundTrip` | src/protocol.cpp:400-417 | an array round-trips if and only if each of its items does |
| `Content.AnnotationsRoundTrip` | src/protocol.cpp:400-420 | annotations, the audience array included, parse back to themselves |
| `Content.IconRoundTrip` | src/protocol.cpp:204-216 | icons parse back to themselves |
| `Content.ResourceRoundTrip` | src/protocol.cpp:462-497 | text and blob contents are told apart by the member present and parse back to themselves |
| `Content.LinkRoundTrip` | src/protocol.cpp:547-571 | a resource link parses back to itself if and only if its _meta is not an explicit null |
| `Content.PlainRoundTrip` | src/protocol.cpp:601-613 | a plain block parses back to itself if and only if no raw field of it is an explicit null |
| `Content.ToolUseRoundTrip` | src/protocol.cpp:585-598 | a tool use parses back to itself, whatever its input |
| `Content.ToolResultRoundTrip` | src/protocol.cpp:615-628 | a tool result parses back to itself if and only if the blocks nested in it are clean |
| `Content.BlockRoundTrip` | src/protocol.cpp:630-645 | the same of every content block, dispatched on its type |
| `Content.BlockExactly` | src/protocol.cpp:400-645 | a JSON value is read as a given content block if and only if, key by key, it is written as that block may be: optional keys absent or null, "text" before "blob", no tool block inside a tool result |
| `Content.PlainRefuses` | src/protocol.cpp:601-613 | a block of an unknown or no type, and a tool block where a plain one must stand, is a parse error |
| `Content.MessageRoundTrip` | src/protocol.cpp:1178-1197 | a sampling message parses back to itself if and only if its blocks are clean |
| `Content.ContentShape` | src/protocol.cpp:1178-1186 | one block is written bare as an object, any other number as an array of as many |
| `Content.MessageExactly` | src/protocol.cpp:1178-1197 | a JSON value is read as a given message if and only if its role is one of the two and its content that message's blocks, in an array or, for one block, bare |
| `Sse.Scan` | src/http_client_transport.cpp:75-86 | the terminator found is the earliest, and none means there is none |
| `Sse.Drain` | src/http_client_transport.cpp:73-90 | what is left over is the end of the buffer and holds no terminator |
| `Sse.TerminatorStable` | src/http_client_transport.cpp:77-85 | the earliest terminator of a prefix is the earliest of every extension |
| `Sse.ChunkIndependence` | src/http_client_transport.cpp:72-132 | draining a, then the leftover with b appended, gives the events and leftover of draining a + b |
| `Sse.AnyChunking` | src/http_client_transport.cpp:508-524 | however the bytes are cut into chunks, events and leftover are those of the whole stream |
| `SseBuffer.FindTerminator` | src/http_client_transport.cpp:75-85 | the index loop computes the earliest terminator |
| `SseBuffer.ReadEvent` | src/http_client_transport.cpp:91-127 | the line loop fills the event as interpreting its lines in order does |
| `SseBuffer.CutLine` | src/http_client_transport.cpp:103-113 | a line is cut into field and value, comments and blank lines aside |
| `SseStandard.InterpretData` | src/http_client_transport.cpp:114-116 | the data of an event is the values of its data lines, joined by line feeds once there is any |
| `SseBuffer.Decoder.Push` | src/http_client_transport.cpp:73-132 | the buffer after a chunk, and the events called back, are those of draining buffer + chunk |
| `Sse.StoiPrinted` | src/http_client_transport.cpp:122-125 | a printed integer is read back, whatever text follows, if and only if it is an int |
| `SseWire.FieldLine` | src/http_client_transport.cpp:103-113 | a line "name: value" is cut into just that name and value, less a final carriage return |
| `SseWire.IdLine` | src/http_client_transport.cpp:117-118 | an id line sets the id and nothing else |
| `SseWire.RetryLine` | src/http_client_transport.cpp:119-126 | a retry line is taken if and only if its number is an int not below zero, and otherwise changes nothing |
| `SseEvents.DeliveredExactly` | src/http_client_transport.cpp:128-130 | the first complete event is called back if and only if some line of it gives nonempty data, an id or a valid retry; the rest is drained as by itself |
| `SseEvents.IdEvent` | src/http_client_transport.cpp:117-130 | an event with only an id is called back with that id |
| `SseEvents.RetryEvent` | src/http_client_transport.cpp:119-130 | an event with only a printed retry is called back if and only if that is an int not below zero |
| `SseEvents.TightField` | src/http_client_transport.cpp:103-113 | without a space after the colon the value is all that follows it |
| `SseEvents.BareField` | src/http_client_transport.cpp:105-109 | without a colon the whole line is the field name |
| `SseEvents.OtherLine` | src/http_client_transport.cpp:104-127 | comments, blank lines and other fields change nothing |
| `SseEvents.CrLfLine` | src/http_client_transport.cpp:103-104 | a carriage return before the line feed is no part of the line |
| `SseEvents.CrLfFrame` | src/http_client_transport.cpp:75-90 | a frame whose event ends in CRLF CRLF is read as one that ends in two line feeds |
| `SseEvents.StoiSpace` | src/http_client_transport.cpp:122-125 | white space of any of the six kinds before a number is skipped |
| `SseEvents.StoiPlus` | src/http_client_transport.cpp:122-125 | a plus sign is allowed |
| `SseEvents.StoiNone` | src/http_client_transport.cpp:122-125 | text that starts with neither space, sign nor digit is no number |
| `SseStandard.AgreesWithStandard` | src/http_client_transport.cpp:86-130 | on streams without carriage returns and byte order mark the data payloads are the standard's if and only if no event's first data value is empty |
| `SseWire.ReadHeartbeat` | src/http_server_host.cpp:797-802 | a heartbeat is read as nothing |
| `SseWire.ReadFrame` | src/http_server_host.cpp:804-810 | a newline-free frame is read as one event with that data, less a final carriage return |
| `SseWire.ReceivedExactly` | src/http_client_transport.cpp:103-128 | frames come through unchanged if and only if none is empty or ends in a carriage return |
| `SseWire.RoundTrip` | src/http_server_host.cpp:788-812 | for any interleaving of heartbeats and frames and any chunking the client delivers exactly the frames written, in order, if and only if each is nonempty and does not end in a carriage return |
| `SseMark.AgreesBehindMark` | src/http_client_transport.cpp:86-130 | behind a byte order mark, on streams without carriage returns, the data payloads are the standard's if and only if no event's first data value is empty and the first complete event does not start with a data line |
| `SseMark.ByteOrderMarkHidesData` | src/http_client_transport.cpp:105-116 | a frame directly behind the mark is lost, and the standard delivers it |
| `Stdio.ChunkIndependence` | src/stdio_transport.cpp:209-238 | reading a and going on with b delivers what reading a + b does |
| `Stdio.PartialBounded` | src/stdio_transport.cpp:233-237 | the unfinished line never exceeds max_frame_bytes |
| `Stdio.Reader.Byte` | src/stdio_transport.cpp:209-238 | one byte extends the reading by that byte |
| `Stdio.Reader.Consume` | src/stdio_transport.cpp:209-238 | a chunk extends the reading by the chunk, or the line has grown too long |
| `Stdio.Reader.ReadLoop` | src/stdio_transport.cpp:165-245 | whatever the read sizes and retries, frames delivered are those of the bytes read up to the end, an error or the first too long line; and it ends for just that reason |
| `Stdio.Writer.Send` | src/stdio_transport.cpp:133-163 | short and interrupted writes put the whole frame and a line feed on the wire; a failure leaves a prefix; when every write makes progress a bounded number suffices |
| `Stdio.RoundTrip` | src/stdio_transport.cpp:133-245 | a receiver delivers exactly the frames sent, in lock order, if and only if each is nonempty, within the limit and does not end in a carriage return |
| `Stdio.CrLfLine` | src/stdio_transport.cpp:211-231 | a line ended by CRLF delivers the frame without the carriage return, which counts toward the limit |
| `Stdio.DeliversNothing` | src/stdio_transport.cpp:211-231 | a finished line within the limit delivers nothing if and only if it is empty or one carriage return, and otherwise one frame |
| `Stdio.MixedRoundTrip` | src/stdio_transport.cpp:211-231 | a wire on which each line ends in LF or CRLF delivers exactly its frames, in order |
| `Stdio.BytesOf` | src/stdio_transport.cpp:197-207 | retries add nothing, and nothing behind the first end or error is read |
| `Stdio.PartDeliversPrefix` | src/stdio_transport.cpp:165-245 | a receiver that has any part of the wire has delivered a prefix of the frames sent |
| `Stdio.AfterFailedWrite` | src/stdio_transport.cpp:145-161 | after a write failed part way the next frame is glued to what was left, or makes a line too long; it arrives as sent if and only if nothing was left |
| `Pagination.DecodeCursor` | src/server.cpp:493-514 | a nonempty cursor is accepted if and only if it is at most 20 digits with a value below 2^64, and decodes to that value; no operation overflows |
| `Pagination.PrintedCursor` | src/server.cpp:493-531 | a printed offset is accepted if and only if it is below 2^64, and reads back as itself |
| `Pagination.SlicesWellFormed` | src/server.cpp:520-532 | every offset a client may send gives a well-formed slice if and only if size and page size together stay within 64 bits |
| `Pagination.PageLength` | src/server.cpp:520-532 | a page from inside the list holds as many items as the page size and the list allow, in order, or all the rest for page size 0; there is a next cursor, at the page's end, if and only if items are left |
| `Pagination.WalkComplete` | src/server.cpp:520-532 | following the cursors collects exactly the rest of the list, with the remaining length as measure |
| `TaskRegions.CreateSound` | src/server.cpp:182-205 | a fresh task is working, with the ttl and creation time given, last in the order; index, map and entries stay in agreement |
| `TaskRegions.CompleteSound` | src/server.cpp:207-243 | a live task completes: its result is stored, nothing else of it but the status changes, and no ended task changes; the cancellation branch is never taken |
| `TaskRegions.FailSound` | src/server.cpp:245-261 | a live task fails with its error and message; nothing else of it changes, and no ended task changes |
| `TaskRegions.CancelSound` | src/server.cpp:263-293 | a live task is flagged and cancelled with its message; the flag is set exactly with that status, and no ended task changes |
| `TaskRegions.CompletedHasResult` | src/server.cpp:335-339 | the "completed without a result payload" error cannot be met |
| `TaskRegions.CollectSound` | src/server.cpp:390-414 | after a collection the order lists the map's keys, once each |
| `TaskRegions.WithoutKeepsOrder` | src/server.cpp:402-406 | the survivors of an erasure keep their relative order |
| `TaskRegions.CollectExactly` | src/server.cpp:390-414 | exactly the terminal tasks whose age has reached their ttl go, from map and order alike; the others are unchanged and in their old order |
| `TaskRegions.PageLength` | src/server.cpp:373-382 | a page from inside the order holds min(page size, tasks left) tasks, or all left for page size 0, in order; its next cursor is there if and only if tasks are left, and means the page's end |
| `TaskRegions.PagePast` | src/server.cpp:371-371 | from the end on a page is empty and the last |
| `TaskRegions.CursorLaw` | src/server.cpp:354-367 | a cursor is refused if and only if it is not digits with a value below 2^64; leading zeros and the empty cursor are accepted |
| `TaskStoreObject.Erase` | src/server.cpp:404-406 | erase-remove drops every occurrence of the id and nothing else |
| `TaskStoreObject.ParseOffset` | src/server.cpp:354-367 | a cursor of tasks/list is digits of any number with a value below 2^64 |
| `TaskStoreObject.TaskStore.Create` | src/server.cpp:182-205 | the new entry, its place in the order and the projection for the listener |
| `TaskStoreObject.TaskStore.Complete` | src/server.cpp:207-243 | the region of complete: new store and the notification due, if any |
| `TaskStoreObject.TaskStore.Fail` | src/server.cpp:245-261 | the region of fail |
| `TaskStoreObject.TaskStore.Cancel` | src/server.cpp:263-293 | the region of cancel: what it returns, and that only the cancelling call notifies |
| `TaskStoreObject.TaskStore.GcExpired` | src/server.cpp:390-414 | in whatever order the map is walked, the same store is left and the removed are counted |
| `TaskStoreObject.TaskStore.DropIfExpired` | src/server.cpp:395-411 | one entry: dropped from map and order if terminal and past its ttl, otherwise nothing changes |
| `TaskStoreObject.TaskStore.TasksFrom` | src/server.cpp:377-380 | the loop collects the tasks of the slice, in order |
| `TaskStoreObject.TaskStore.List` | src/server.cpp:350-383 | the page, the next cursor, the refused cursor and the wrapped sum |
| `TaskRuns.InvStep` | src/server.cpp:182-449 | every action keeps the invariant: agreement of the store, the in-flight count, an owner for each live task, one fate per task, one note per transition |
| `TaskRuns.InvCount` | src/server.cpp:416-419 | worker_started counts the handler's worker once, after its task was announced |
| `TaskRuns.InvFinish` | src/server.cpp:426-435 | worker_finished takes exactly that worker out of the count |
| `TaskRuns.InvEnded` | src/server.cpp:207-293 | racing complete, fail and cancel: the first to find the task live decides its fate, the others change nothing |
| `TaskTheorems.EndedIsFinal` | src/server.cpp:213-222 | in every run status, result, error and the answer of wait_result never change once a task has ended, until it is collected; then it never comes back |
| `TaskTheorems.ResultIsTheTools` | src/server.cpp:309-348 | tasks/result answers with the very JSON the task's tool returned if and only if that completion came first; otherwise with the error of its fate, of an unknown id, a timeout, or shutdown |
| `TaskTheorems.NotesOnce` | src/server.cpp:194-293 | over any run a task yields at most one "working" and one terminal notification, the latter with the status it keeps |
| `TaskTheorems.NotesAll` | src/server.cpp:194-293 | none is lost: with no listener call under way those heard are exactly those of the transitions made |
| `TaskTheorems.WorkingFirst` | src/server.cpp:900-929 | completion and failure are heard only after the "working" of their task |
| `TaskTheorems.CancelMayComeFirst` | src/server.cpp:263-293 | a cancellation is not so ordered: a run has it heard before "working" |
| `TaskTheorems.ShutdownReturns` | src/server.cpp:437-449 | when shutdown can return there is no worker, and every task is terminal if and only if no handler short of worker_started holds a live one |
| `TaskTheorems.ShutdownTells` | src/server.cpp:426-449 | when shutdown can return every completion and failure has been told to the listener |
| `TaskTheorems.ShutdownMayLeave` | src/server.cpp:900-913 | the exception is real: shutdown can return over a working task |
| `TaskTheorems.ShutdownStays` | src/server.cpp:437-449 | the store is shutting down if and only if shutdown has begun, whatever came since |
| `TaskTheorems.PagingAcrossChanges` | src/server.cpp:350-383 | whatever happens between the calls, collection apart, the pages make a prefix of the final order without repetition, and a finished walk holds every task present at its start, in creation order |
| `TaskTheorems.CollectionSkips` | src/server.cpp:390-414 | a collection during a walk leaves exactly the unseen survivors to it if and only if none of the tasks already given was collected, or no survivor is left |
| `TaskTheorems.Lifetime` | src/server.cpp:390-414 | whatever happens since its creation, a collection removes a stored task if and only if it has ended and the ttl it was created with has passed since then |
| `HttpGate.ConservedStep` | src/http_server_host.cpp:67-94 | a frame that arrived is buffered, in the hands of start(), dispatched or dropped: one of them, once |
| `HttpGate.DispatchedOnce` | src/http_server_host.cpp:226-237 | in any race with start(), once its loop is done, every frame delivered has been dispatched exactly once if and only if none was dropped or is stranded; none is when on_message came first, and nothing is dispatched before on_message |
| `HttpGate.OrderKept` | src/http_server_host.cpp:81-94 | over distinct frames the order of arrival is kept in a run if and only if no frame passes while earlier ones are with start() or stranded, and none is dropped |
| `HttpGate.MayOvertake` | src/http_server_host.cpp:81-94 | a run with on_message first in which a late frame is dispatched before an early one |
| `HttpGate.GateObject.Open` | src/http_server_host.cpp:85-90 | the region of start() flips the gate and takes the whole buffer |
| `HttpGate.GateObject.FindCallback` | src/http_server_host.cpp:91-93 | the callback is looked for after the unlock: with it everything taken is to be dispatched, without it everything is dropped |
| `HttpGate.GateObject.Deliver` | src/http_server_host.cpp:232-237 | a frame goes to the callback or to the buffer |
| `HttpRoutes.KeyInjective` | src/http_server_host.cpp:246-251 | string and 64-bit integer ids have different keys, and only an integer that wraps to one shares its key |
| `HttpRoutes.OneKeyForTheRest` | src/http_server_host.cpp:246-251 | ids that are neither string nor integer share one key, which no other has |
| `HttpRoutes.Classified` | src/http_server_host.cpp:139-141 | a Session's frames are told apart as the protocol does: requests, responses with an id, and the rest, each keyed by its canonical id |
| `HttpRoutes.InvStep` | src/http_server_host.cpp:96-159 | every step keeps each POST parked under its own key or taken once, and each answer matched to its request |
| `HttpRoutes.SettledAtMostOnce` | src/http_server_host.cpp:96-106 | in every interleaving with close() a POST's promise is parked, held by one thread or settled, and given one outcome |
| `HttpRoutes.OwnAnswer` | src/http_server_host.cpp:143-159 | a POST is answered only with a response of its own id |
| `HttpRoutes.BrokenIffDuplicate` | src/http_server_host.cpp:222-227 | a POST's promise is broken on arrival if and only if one with its key is outstanding, and no other promise is taken with it |
| `HttpRoutes.AnswerReaches` | src/http_server_host.cpp:143-159 | a response in send() reaches the POST parked under its id |
| `HttpRoutes.RefusedResponse` | src/http_server_host.cpp:145-153 | a response without an awaiter is refused: nothing changes, and it is not tried again |
| `HttpRoutes.SettledOnce` | src/http_server_host.cpp:96-159 | in no run is a POST's promise settled twice |
| `HttpRoutes.DrainTells` | src/http_server_host.cpp:98-106 | the drain of close() tells every parked POST that the session is closed |
| `HttpRoutes.PostAfterCloseStarves` | src/http_server_host.cpp:96-159 | no run ever takes a parked POST out if and only if close() is past its drain and no send() under way carries a response to it |
| `HttpRoutes.PostAfterDrain` | src/http_server_host.cpp:222-227 | a POST that parks after the drain is such a one |
| `HttpRoutes.RouteTable.Emplace` | src/http_server_host.cpp:222-227 | registration parks the promise unless the key is taken |
| `HttpRoutes.RouteTable.TakeAwaiter` | src/http_server_host.cpp:145-159 | a response takes its awaiter out, or is refused |
| `HttpRoutes.RouteTable.Exchange` | src/http_server_host.cpp:97-97 | only one close() goes on |
| `HttpRoutes.RouteTable.DrainAll` | src/http_server_host.cpp:98-107 | the loop meets every parked promise once |
| `HttpStream.InvStep` | src/http_server_host.cpp:161-201 | every push, pop, heartbeat, write and failed write keeps queue, pops and streams in agreement |
| `HttpStream.QueueConserved` | src/http_server_host.cpp:161-201 | frames popped, in order, followed by those queued are the frames pushed |
| `HttpStream.ClientReceives` | src/http_server_host.cpp:788-816 | whatever part of a stream has arrived, however cut, the frames delivered are a prefix of those its handler popped, and all of them between turns |
| `HttpStream.OneStream` | src/http_client_transport.cpp:508-524 | with one GET stream the frames delivered are a prefix of those pushed |
| `HttpStream.PoppedInTurn` | src/http_server_host.cpp:161-171 | a frame given to send leaves the queue right after those given before it |
| `HttpStream.BeatsWhenDrained` | src/http_server_host.cpp:173-201 | a heartbeat is sent only when every frame pushed has been popped |
| `HttpStream.GetQueue.NextBytes` | src/http_server_host.cpp:191-201 | a turn pops the front frame or, the queue empty, beats, and its bytes encode that |

## Left out

- JSON text: parsing and printing it are the JSON library's; frames are JSON values, and dumped text is taken to be nonempty, free of raw newlines and not to end in a carriage return.
- JSON integers beyond 64 bits, which the library reads as floating point, and float ids whose value is outside the 64-bit range, whose cast the language leaves undefined: the model refuses the latter.
- Floating point: numbers are reals, so rounding of large integers read as a double, NaN and infinities do not occur.
- Memory order weaker than sequential consistency, failure to create a thread, running out of memory.
- The 64-bit request id counter: requests are issued while it is in range; its wrap-around is not modelled.
- Handler tables and their locking: a request's handler is whatever ends its worker; a missing handler is one of the ways.
- The on_closed callback, logging, and error callbacks.
- The transport's own close: frames may be received at any step of close(), though after that call none is.
- Sockets, poll, the wake-up pipe, file descriptors and TLS: reads and writes are chunk lengths chosen by the environment.
- stdio frames that arrive before on_message is set, which are dropped.
- Streams with lone carriage returns as line ends are outside the comparison with the standard.
- The reconnection logic of the HTTP client, Last-Event-ID resumption and retry timing.
- Authorization, CORS and origin checks, session-id minting and the session table of the HTTP host.
- The cap on concurrent tasks as an invariant: its check and the increment are separate steps (`src/server.cpp:887-913`), so callers can pass together.
- Timestamps of tasks and the minting of task ids: ids are given fresh.
- A status listener that throws: the one the server installs does not.
- The wait of tasks/result as a loop: `WaitResult` is what it returns once it stops waiting.
- Other codecs (tools, prompts, elicitation, capabilities, tool choice) and the typed wrappers of Client and Server, which would add members of the same kind.
- HttpGate.GateObject.FindCallback: the loop of start() that follows is the machine's Dispatch actions, since other threads run between its turns.
