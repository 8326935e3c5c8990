# WebviewLogger core in Dafny

A model of the logging core of WebviewLogger. There are three parts:

- **The process-wide facade `AdvancedLogger`.** It handles live dispatch to the log viewer and a 5000-entry drop-oldest backup buffer. Recovery is rate-gated to once a minute, and the buffer is drained once delivery is possible again. It also provides `LogException` and the five level shortcuts.
- **The delivery channel `LogViewerServer`.** This is its start/stop lifecycle, its outbound queue, the case-insensitive request router, the static responses, and the server-sent-event stream handler.
- **The record types `LogRecord` and `LogLevel`.**

Everything is immutable data and pure functions.

- The facade's static fields are one `Facade.Logger` value, and every entry point maps a state to a new state.
- What a call reads from its surroundings is one `Facade.Env` value per top-level call:
  - the clock, as `DateTime` ticks, one reading per call;
  - the thread id;
  - whether the listener binds its port;
  - the id generator;
  - `Path.GetFileName`;
  - the JSON serialiser, as a function that returns text or the message of what it threw.
- The stream handler is a function of the channel at connect time and a trace of loop turns. Each turn says whether the server was running at the loop head, what arrived while the handler waited, and whether the connection was still writable.

Modules, by file:

- `common.dfy`: `Option` and `Result`.
- `decimal.dfy`: decimal rendering of integers and its inverse (the viewer URL, record locations, keepalive counters).
- `json.dfy`: a closed JSON value, the model of `object Data` and of a serialised record.
- `log_level.dfy`: `Levels`, the five severities.
- `log_record.dfy`: `Records`, the nine-field record and the object the serialiser builds from it under either option set.
- `backup_buffer.dfy`: `Backup`, the drop-oldest FIFO.
- `viewer_server.dfy`: `ViewerServer`, the channel lifecycle, queue, router and responses.
- `event_stream.dfy`: `EventStream`, the `/logs` handler, its framing (WHATWG HTML Living Standard, section 9.2, Server-sent events), and a reader that inverts it.
- `facade.dfy`: `Facade`, `AdvancedLogger` with two corrections (see Findings). `Initialize` marks the viewer operational before it logs its own record, and the five level shortcuts forward their caller's call site.
- `facade_lemmas.dfy`: `FacadeLemmas`, what the facade promises its callers.
- `as_written.dfy`: `AsWritten`, the dispatch exactly as written, with a fuel bound on nesting.
- `as_written_agreement.dfy`: `AsWrittenAgreement`, where the code as written returns, it agrees with `Facade`.

Where the code's own comments promise more than the code does, the model follows the code:

- **"True if initialization was successful"** (`WebviewLogger/AdvancedLogger.cs:46`). `LogViewerServer.Start` catches a failure of the listener's own `Start` and only leaves the channel stopped (`Logger.cs:44-54`). That failure never reaches `Initialize`, which still returns true and marks the viewer operational. `TryRecover` likewise marks it operational. Only an exception thrown in `Start` before its `try` reaches `Initialize`'s catch (`AdvancedLogger.cs:75-80`), which returns false and clears both flags. An example is the listener rejecting a prefix for an out-of-range port (`Logger.cs:40-42`). Those exceptions are left out (see Left out), and only with them left out does `Initialize` always return true.
- **"Ensure we don't exceed maximum backup size"** (`AdvancedLogger.cs:225`). The trim runs only on the buffering path. A failed live send enqueues the diagnostic and the record without trimming (`:194-211`). A single-threaded run never reaches that path with a non-empty buffer: while the logger is initialised and operational, the buffer is empty (`FacadeLemmas.RunKeepsBufferBounded`). So only producers on other threads can push the buffer past 5000, and threads are left out.
- **"Try to initialize if not yet initialized"** (`AdvancedLogger.cs:231`). The branch tests both flags, and `_viewerOperational` starts true (`:33`). So before the first `Initialize` a log call only buffers. Both flags are false only in two cases: after `Shutdown` (`:343-346`), or after the catch at `:75-80`, whose causes are left out. From such a state, the code's next `Log` or `Initialize` re-enters itself without end (Findings).
- **"Get a snapshot of the current backup logs"** (`AdvancedLogger.cs:299`). The drain dequeues the whole buffer before it sends anything. When a send fails part-way (`:318-322`), the records not yet forwarded are lost, not kept.
- **Level encoding.** Live dispatch serialises with the string-enum converter, so the level goes out as its name (`AdvancedLogger.cs:185-191`). The drain serialises with default options (`:309`), so drained records carry the level's integer.
- **Keepalive counter.** The counter in `Logger.cs` is reset to 0 after every wake-up (`:166`), so the k-th consecutive idle timeout says k.

## Model

| member | source | states |
|---|---|---|
| Levels.Ordinal | WebviewLogger/LogLevel.cs:8-12 | a level's integer value is its position in declaration order |
| Levels.FromOrdinal | WebviewLogger/LogLevel.cs:8-12 | an integer names a level exactly when it is in 0..4, and then names the level at that position |
| Levels.FromName | WebviewLogger/LogLevel.cs:8-12 | a name that is read back as a level is that level's name |
| Levels.ExactlyFiveLevels | WebviewLogger/LogLevel.cs:6-13 | there are exactly five distinct levels, and every level is one of them |
| Levels.OrdinalsIncrease | WebviewLogger/LogLevel.cs:8-12 | declaration order is severity order: integer values strictly increase along it |
| Levels.OrdinalRoundTrip | WebviewLogger/LogLevel.cs:8-12 | level to integer and back is the identity, and so is integer to level and back on 0..4 |
| Levels.NameRoundTrip | WebviewLogger/LogLevel.cs:8-12 | a level's name reads back as that level |
| Levels.NamesDistinct | WebviewLogger/LogLevel.cs:8-12 | the name on the wire identifies the level uniquely |
| Records.ToWire | WebviewLogger/LogRecord.cs:11-19 | a serialised record is an object with exactly the nine properties, in declaration order |
| Records.FromWire | WebviewLogger/LogRecord.cs:11-19 | the reader accepts only what the writer produces: an object it reads as a record is exactly that record's object under the options it was written with |
| Records.WireRoundTrip | WebviewLogger/LogRecord.cs:11-19 | every record, a null payload included, is read back unchanged from its serialised object under either option set |
| Records.WireLevelEncoding | WebviewLogger/AdvancedLogger.cs:185-191 | with the string-enum converter the level is written as its name; with default options (the drain, line 309) as its integer |
| Records.WireOptionsAgreeElsewhere | WebviewLogger/AdvancedLogger.cs:185-191 | the two option sets produce the same value for every property except Level, with the payload taken as already-encoded JSON (enums nested in `Data` are left out) |
| Decimal.IntRoundTrip | WebviewLogger/AdvancedLogger.cs:109 | the decimal text interpolated for a line number or port parses back to the same integer |
| Decimal.IntToStringInjective | WebviewLogger/AdvancedLogger.cs:109 | distinct integers never print alike |
| Backup.KeepNewest | WebviewLogger/AdvancedLogger.cs:226-229 | the trim loop leaves the newest min(n, 5000) entries, in order, as a suffix of the queue |
| Backup.Append | WebviewLogger/AdvancedLogger.cs:222-229 | a buffered append puts the record at the tail, drops only the oldest entry and only when the buffer was full, and leaves at most 5000 |
| Backup.AppendAll | WebviewLogger/AdvancedLogger.cs:222-229 | appending nothing leaves the buffer as it was; otherwise the buffer ends with the last record appended and holds at most 5000 |
| Backup.AppendAllKeepsNewest | WebviewLogger/AdvancedLogger.cs:222-229 | any run of buffered appends leaves exactly the newest 5000 of everything appended, oldest first |
| Backup.OverflowDropsOldest | WebviewLogger/AdvancedLogger.cs:222-229 | more than 5000 records buffered into an empty buffer leave exactly the newest 5000, oldest first; everything older is dropped |
| ViewerServer.Create | WebviewLogger/Logger.cs:26-30 | a new channel is stopped, on the given port, with an empty queue and the wake-up event clear |
| ViewerServer.Start | WebviewLogger/Logger.cs:32-55 | no-op when running; otherwise running afterwards exactly when the listener bound; a bind failure never escapes; nothing else changes |
| ViewerServer.Stop | WebviewLogger/Logger.cs:57-65 | no-op when stopped; otherwise stopped afterwards; nothing else changes |
| ViewerServer.StartStopIdempotent | WebviewLogger/Logger.cs:32-65 | a second start after a successful one and a second stop change nothing; stop after any start leaves the channel stopped |
| ViewerServer.AddLogEntry | WebviewLogger/Logger.cs:67-71 | the entry goes to the tail of the queue and the wake-up event is set; port and running state are unchanged |
| ViewerServer.AddAll | WebviewLogger/Logger.cs:67-71 | several entries added in turn extend the queue by exactly those entries, in order |
| ViewerServer.Lower | WebviewLogger/Logger.cs:97 | lower-casing keeps the length and maps every character on its own |
| ViewerServer.LowerIdempotent | WebviewLogger/Logger.cs:97 | lower-casing an already lower-cased path changes nothing |
| ViewerServer.Route | WebviewLogger/Logger.cs:94-120 | the branch chain routes every path as an independent six-entry routing table does after lower-casing: three paths for the page, one each for the stream, the stylesheet and the script; every other path gets the not-found handler |
| ViewerServer.HandleRequest | WebviewLogger/Logger.cs:94-120 | a request gets status 200 exactly when its lower-cased path is in the routing table; every other request gets 404 as text/plain with the UTF-8 of the fixed not-found message |
| ViewerServer.RouteIgnoresCase | WebviewLogger/Logger.cs:97 | two paths that differ only in letter case reach the same handler |
| ViewerServer.ServerAssets | WebviewLogger/Logger.cs:1126 | the not-found body is the fixed 404 message |
| ViewerServer.Utf8Char | WebviewLogger/Logger.cs:1127 | one character encodes to one to four bytes, and to one byte exactly when it is ASCII |
| ViewerServer.Respond | WebviewLogger/Logger.cs:301-305 | status 200 for every served resource and 404 otherwise; every static response declares its body's byte count as its length |
| ViewerServer.RespondServes | WebviewLogger/Logger.cs:1122-1140 | the page, stylesheet and script go out as text/html, text/css and application/javascript; the not-found case as 404 text/plain with the UTF-8 of its message; the stream with the no-cache, keep-alive and any-origin headers and no length |
| EventStream.Wait | WebviewLogger/Logger.cs:153-178 | after one wait, the data written plus what is still queued is exactly the old queue followed by the arrivals |
| EventStream.Serve | WebviewLogger/Logger.cs:137-146 | a subscriber first gets the open event, then every entry queued before it connected as a data event, in order, and never another open event |
| EventStream.Loop | WebviewLogger/Logger.cs:148-190 | the loop after the initial drain writes only data events and keepalives, never an open event |
| EventStream.StreamOpens | WebviewLogger/Logger.cs:139-146 | the written text starts with exactly "event: open" and a blank line, followed by the frames of the entries already queued |
| EventStream.LoopConserves | WebviewLogger/Logger.cs:150-184 | over the loop, the data written plus the final queue is the starting queue followed by everything that arrived in the turns the loop ran |
| EventStream.LoopDrains | WebviewLogger/Logger.cs:159-163 | a loop entered with an empty queue leaves it empty |
| EventStream.DeliversEverythingInOrder | WebviewLogger/Logger.cs:139-166 | a sole subscriber receives every queued and later-arriving entry exactly once, in queue order, and the queue ends empty |
| EventStream.LoopWellNumbered | WebviewLogger/Logger.cs:148-173 | inside the loop, each keepalive is numbered exactly one more than the keepalive just before it, or 1 when a data event precedes it; this holds whenever the loop is entered with a counter that a set wake-up event with nothing queued cannot contradict |
| EventStream.ServeWellNumbered | WebviewLogger/Logger.cs:137-173 | over a whole connection, keepalives are numbered exactly 1, 2, 3, … from the open event and from every data event on |
| EventStream.IdleTurnsCount | WebviewLogger/Logger.cs:168-173 | with the event clear, n idle turns write keepalives numbered on from the counter: the k-th idle timeout says k |
| EventStream.ParseRender | WebviewLogger/Logger.cs:139-173 | the framing is unambiguous: a reader of the written text recovers exactly the events written, as long as payloads hold no line break |
| Facade.RecordFields | WebviewLogger/AdvancedLogger.cs:108-123 | a record gets a fresh id, the current time, the caller's level, message and payload, "Unknown" and "General" for a missing source and category, the site as file:member:line, and the caller's thread id if given, else the current thread's |
| Facade.Log | WebviewLogger/AdvancedLogger.cs:96-126 | every log call draws a fresh id and keeps the buffer bound: at most 5000 records, and none while the logger is initialised and operational |
| Facade.Step | WebviewLogger/AdvancedLogger.cs:173-242 | the first step of the dispatch initialises only with both flags clear, recovers only when recovery is due, keeps the buffer bound, and never lowers the count of ids drawn |
| Facade.Dispatch | WebviewLogger/AdvancedLogger.cs:173-242 | the whole dispatch, nested initialisation and recovery included, keeps the buffer bound |
| Facade.Failed | WebviewLogger/AdvancedLogger.cs:194-211 | a failed live send marks the viewer non-operational, appends the diagnostic and then the record without trimming, draws one id, and changes nothing else |
| Facade.Initialize | WebviewLogger/AdvancedLogger.cs:47-83 | `Initialize` returns true (its catch's causes are left out) and leaves the logger initialised; an initialised logger is unchanged; otherwise the buffer ends empty |
| Facade.TryRecover | WebviewLogger/AdvancedLogger.cs:263-287 | recovery keeps the buffer bound |
| Facade.LogException | WebviewLogger/AdvancedLogger.cs:131-171 | an exception log draws a fresh id and keeps the buffer bound |
| Facade.Info | WebviewLogger/AdvancedLogger.cs:245-246 | the Info shortcut, with the caller's site forwarded, draws a fresh id and keeps the buffer bound |
| Facade.Warning | WebviewLogger/AdvancedLogger.cs:248-249 | the Warning shortcut, with the caller's site forwarded, draws a fresh id and keeps the buffer bound |
| Facade.Error | WebviewLogger/AdvancedLogger.cs:251-252 | the Error shortcut, with the caller's site forwarded, draws a fresh id and keeps the buffer bound |
| Facade.Debug | WebviewLogger/AdvancedLogger.cs:254-255 | the Debug shortcut, with the caller's site forwarded, draws a fresh id and keeps the buffer bound |
| Facade.Critical | WebviewLogger/AdvancedLogger.cs:257-258 | the Critical shortcut, with the caller's site forwarded, draws a fresh id and keeps the buffer bound |
| Facade.Diagnostic | WebviewLogger/AdvancedLogger.cs:200-208 | the failure record is an Error from System/Logging saying "Log viewer failed: " and the reason; Location, ThreadId and Data keep their defaults (null, 0, null) |
| Facade.Send | WebviewLogger/AdvancedLogger.cs:185-192 | a send succeeds exactly when the record serialises and there is a server, and then enqueues the serialised text |
| Facade.StepCases | WebviewLogger/AdvancedLogger.cs:179-241 | the dispatch initialises exactly when both flags are clear, and recovers exactly when the logger is initialised, recovery is due and the record cannot go out live; a healthy logger sends, a failed send stores the diagnostic and the record, anything else buffers with the cap |
| Facade.ForwardSendsPrefix | WebviewLogger/AdvancedLogger.cs:307-322 | forwarding sends the longest prefix that serialises, appending it to the server's queue in order, and fails exactly when that prefix is not all; with no server it fails at once |
| Facade.Drain | WebviewLogger/AdvancedLogger.cs:294-295 | a drain does nothing unless the logger is initialised and operational, and never touches the port, the recovery clock or the initialised flag |
| Facade.DrainForwards | WebviewLogger/AdvancedLogger.cs:297-323 | a drain empties the buffer, sends its serialisable prefix oldest first, and leaves the viewer operational exactly when every record went out |
| Facade.Shutdown | WebviewLogger/AdvancedLogger.cs:329-348 | shutdown does nothing unless initialised; afterwards both flags are false and the server is stopped; the buffer is kept |
| Facade.GetViewerUrl | WebviewLogger/AdvancedLogger.cs:88-91 | the URL is "http://localhost:", the port, and "/", and the port can be read back from it |
| Facade.ExceptionPayload | WebviewLogger/AdvancedLogger.cs:144-159 | the payload always has "Exception" with the exception's details, and has "CustomData" exactly when the caller passed data, holding that data |
| Facade.ExceptionCall | WebviewLogger/AdvancedLogger.cs:141-170 | an exception is logged at level Error, with the message defaulting to "Exception: " and the exception's message, the category defaulting to "Exception", and the caller's site |
| Facade.ShortcutCall | WebviewLogger/AdvancedLogger.cs:245-258 | as written, a shortcut fixes the level and passes message, source, category and payload through unchanged |
| Facade.ShortcutCallAt | WebviewLogger/AdvancedLogger.cs:245-258 | the corrected shortcut additionally passes the caller's site through |
| FacadeLemmas.UninitializedLogBuffers | WebviewLogger/AdvancedLogger.cs:222-235 | before the first `Initialize` a log call only buffers its record with the cap; it neither sends, initialises nor recovers |
| FacadeLemmas.BootLogBuffers | WebviewLogger/AdvancedLogger.cs:29-33 | from the initial state, a log call leaves the logger uninitialised, operational, serverless, with exactly that record buffered |
| FacadeLemmas.HealthyLogSends | WebviewLogger/AdvancedLogger.cs:179-192 | a healthy logger enqueues the record, with the level as a name, and changes nothing else |
| FacadeLemmas.SendFailureBuffersBoth | WebviewLogger/AdvancedLogger.cs:194-211 | a failed live send marks the viewer non-operational and appends the diagnostic, then the record, and nothing more within a minute of the last recovery |
| FacadeLemmas.SendFailureExceedsCapacity | WebviewLogger/AdvancedLogger.cs:194-211 | the failure path does not trim: a live logger with a full buffer would grow it to 5002, a state only other threads' records can produce |
| FacadeLemmas.SendFailureFromBoundedState | WebviewLogger/AdvancedLogger.cs:194-211 | in any state a single-threaded run reaches, a failed live send leaves exactly the diagnostic and the record buffered |
| FacadeLemmas.SendFailureRecovers | WebviewLogger/AdvancedLogger.cs:213-217 | a failed live send once recovery is due goes on to recover from the failure state in the same call |
| FacadeLemmas.DegradedLogBuffers | WebviewLogger/AdvancedLogger.cs:222-240 | an initialised, non-operational logger buffers with the cap and leaves recovery alone until it is due |
| FacadeLemmas.InitializeKeepsRecoveryClock | WebviewLogger/AdvancedLogger.cs:47-83 | initialisation neither stamps nor makes a recovery attempt |
| FacadeLemmas.LogBeforeRecoveryDue | WebviewLogger/AdvancedLogger.cs:213-240 | within a minute of the last attempt, a log call makes no recovery attempt |
| FacadeLemmas.TryRecoverStampsOnce | WebviewLogger/AdvancedLogger.cs:263-279 | a recovery makes exactly one attempt, stamped now, whatever follows: its closing log call cannot recover again |
| FacadeLemmas.LogRecoveryAttempts | WebviewLogger/AdvancedLogger.cs:213-240 | a log call makes one attempt, stamped now, exactly when it finds the logger initialised, unable to deliver and a minute past the last attempt, and otherwise none |
| FacadeLemmas.AtMostOneRecoveryPerMinute | WebviewLogger/AdvancedLogger.cs:213-240 | any run of log calls within one minute makes at most one recovery attempt, and none if the last attempt already falls in that minute |
| FacadeLemmas.RunKeepsBufferBounded | WebviewLogger/AdvancedLogger.cs:222-229 | any sequence of log, initialise and shutdown calls on one thread keeps the buffer at most 5000, and empty while the logger is initialised and operational |
| FacadeLemmas.BootRunBounded | WebviewLogger/AdvancedLogger.cs:26-33 | from the static initialisers, every single-threaded run keeps that bound |
| FacadeLemmas.InitializeForwardsBuffer | WebviewLogger/AdvancedLogger.cs:54-73 | `Initialize` on an uninitialised logger returns true and starts a server on the port; it buffers its own record after the earlier ones, then forwards them all, oldest first; it ends initialised with an empty buffer, operational exactly when everything serialised |
| FacadeLemmas.InitializeIdempotent | WebviewLogger/AdvancedLogger.cs:49-52 | an initialised logger's `Initialize` returns true and changes nothing |
| FacadeLemmas.ReinitializeAfterShutdown | WebviewLogger/AdvancedLogger.cs:54-73 | after `Shutdown`, the corrected `Initialize` brings the logger back on the new port with an empty buffer |
| FacadeLemmas.InactiveLogInitializes | WebviewLogger/AdvancedLogger.cs:232-235 | with both flags clear a log call buffers its record and initialises with the default arguments |
| FacadeLemmas.LogAfterShutdownInitializes | WebviewLogger/AdvancedLogger.cs:232-235 | with the correction, the first log call after `Shutdown` re-initialises on the default port and empties the buffer |
| FacadeLemmas.DefaultViewerUrl | WebviewLogger/AdvancedLogger.cs:88-91 | on the default port the viewer URL is http://localhost:19867/ |
| FacadeLemmas.RecoveryDrainsInOrder | WebviewLogger/AdvancedLogger.cs:263-279 | a recovery whose drain succeeds sends the buffer oldest first with default options, then the recovery record live; the viewer is operational even if the listener did not bind |
| FacadeLemmas.RecoveryLosesRemainder | WebviewLogger/AdvancedLogger.cs:297-323 | a recovery whose drain fails part-way has sent only the prefix before the failure; the rest is lost and the buffer holds only the recovery record |
| FacadeLemmas.RecoveryWithoutServer | WebviewLogger/AdvancedLogger.cs:263-286 | with no server, recovery stamps the attempt and leaves the viewer non-operational |
| FacadeLemmas.LogExceptionRecord | WebviewLogger/AdvancedLogger.cs:131-171 | in every state, the record an exception log builds is an Error at the caller's site, with the default message and category, the current thread, and a payload carrying the exception and, exactly when given, the custom data |
| FacadeLemmas.UninitializedLogExceptionBuffers | WebviewLogger/AdvancedLogger.cs:131-171 | before the first `Initialize`, an exception log buffers that record with the cap |
| FacadeLemmas.LocationLine | WebviewLogger/AdvancedLogger.cs:108-109 | the caller's line number can always be read back from a record's location |
| FacadeLemmas.ShortcutHidesCaller | WebviewLogger/AdvancedLogger.cs:245-258 | as written, a shortcut's record does not depend on its caller: its location is the shortcut's own site in the facade's file, so a caller on any other line is never reported |
| FacadeLemmas.ShortcutAtReportsCaller | WebviewLogger/AdvancedLogger.cs:245-258 | with the caller's site forwarded, the record names the caller's line |
| FacadeLemmas.ShortcutRecord | WebviewLogger/AdvancedLogger.cs:245-258 | a shortcut fixes only the level; source and category get the usual defaults and the thread is the current one |
| AsWritten.InactiveInitializeNeverReturns | WebviewLogger/AdvancedLogger.cs:54-65 | as written, `Initialize` with both flags clear never returns, however deep the stack |
| AsWritten.InactiveDispatchNeverReturns | WebviewLogger/AdvancedLogger.cs:231-235 | as written, dispatch with both flags clear re-enters `Initialize` and never returns |
| AsWritten.InactiveLogNeverReturns | WebviewLogger/AdvancedLogger.cs:96-126 | as written, a log call with both flags clear never returns |
| AsWritten.LogAfterShutdownNeverReturns | WebviewLogger/AdvancedLogger.cs:343-346 | as written, the first log call after `Shutdown` never returns |
| AsWritten.InitializeAfterShutdownNeverReturns | WebviewLogger/AdvancedLogger.cs:47-65 | as written, `Initialize` after `Shutdown` never returns |
| AsWrittenAgreement.LogAgreesWhenSettled | WebviewLogger/AdvancedLogger.cs:179-241 | from a state where a log call nests no further call, the code returns with any stack depth and agrees with the model |
| AsWrittenAgreement.TryRecoverAgrees | WebviewLogger/AdvancedLogger.cs:263-287 | recovery as written always returns, and agrees with the model |
| AsWrittenAgreement.InitializeAgrees | WebviewLogger/AdvancedLogger.cs:54-73 | with one flag set, `Initialize` as written returns and agrees with the corrected one |
| AsWrittenAgreement.DispatchAgrees | WebviewLogger/AdvancedLogger.cs:173-242 | with one flag set and room for one nested call, dispatch as written returns and agrees with the model |
| AsWrittenAgreement.LogAgrees | WebviewLogger/AdvancedLogger.cs:96-126 | with one flag set and room for one nested call, a log call as written returns and agrees with the model |
| AsWrittenAgreement.BootInitializeAgrees | WebviewLogger/AdvancedLogger.cs:29-33 | the first `Initialize` from the initial state returns, as written and as corrected alike |

## Left out

- Console output (`Console.WriteLine`), including the fallback write in every log call: it changes no state.
- `Thread.Sleep(1000)` in `TryRecover`, and all waiting. The wake-up event's timing is an input of the stream trace.
- Threads and locks. The facade's lock is re-entrant and single-threaded use is modelled. Races between producers, recovery and competing stream subscribers on the shared queue are not. Only such races can push the buffer past 5000: the failure path appends without trimming, and `FacadeLemmas.RunKeepsBufferBounded` shows that one thread only reaches it with an empty buffer.
- `HttpListener`, its prefixes, the accept loop and sockets. `Start` takes whether the listener bound as an input.
- Exceptions from constructing the listener or adding its prefixes, which `Start` does outside its `try`. With those left out, `Initialize`'s catch block never runs and it always returns true.
- Exceptions from stopping the listener in `TryRecover` and `Shutdown`. The only recovery failure modelled is the missing server (a null reference at `Stop`).
- The JSON text. Serialisation is an oracle from the built object to text or a failure message, and only the object and the two option sets are modelled.
- The embedded HTML, CSS and JavaScript. Their text is a parameter of `ViewerServer.Assets`.
- Errors while writing a static response or the stream, and disconnect detection other than `CanWrite`.
- Clock reads within one call. The code reads `DateTime.Now` separately for the timestamp, the recovery gate and the recovery stamp. The model uses one reading per top-level call.
- `TotalMinutes` is a floating-point value. The gate is modelled as the exact tick comparison `elapsed >= 600_000_000`.
- Id uniqueness. `Guid.NewGuid` is the oracle `Env.guid`, indexed by the count of ids drawn so far, and is not assumed injective.
- Fixed-width integers. Ports, line numbers, thread ids and the keepalive counter are unbounded. The code's 32-bit `int` does not overflow in any realistic run.
- Malformed text. Dafny strings hold Unicode scalar values only, so lone UTF-16 surrogates, which the encoder would replace, are not modelled.
- A null message. `Log` copies a caller's null `message` into the record (`AdvancedLogger.cs:117`), and it serialises as null. `LogCall.message` and `LogRecord.message` are strings, so that case is not modelled.
- A null exception. `LogException(null)` throws a `NullReferenceException` at `exception.Message` or `exception.GetType()` (`AdvancedLogger.cs:141-148`) before it logs anything. `ExceptionInfo` always describes an exception.
- Unnamed enum values. C# lets a caller pass `(LogLevel)7`, which the logger accepts and the serialiser writes as the number 7 under either option set. `Levels.Level` has only the five named members, so such a level is not modelled.
- `ViewerServer.Lower` lower-cases only `A`-`Z`, where the code calls `ToLowerInvariant`. Routing is unaffected: `Uri.AbsolutePath` percent-escapes every non-ASCII character, so the path the router sees is ASCII, and on ASCII the two agree.
- Records.WireOptionsAgreeElsewhere: `Data` is modelled as already-encoded JSON, so the lemma does not cover enums nested in the payload. The string-enum converter applies to every enum in the object graph, so such an enum also switches between its name (live dispatch) and its integer (drain): `data: new { L = LogLevel.Warning }` goes out as `{"L":"Warning"}` live and as `{"L":2}` when drained.
- The byte-order mark. The stream's `StreamWriter` with `Encoding.UTF8` (`Logger.cs:134`) writes a UTF-8 byte-order mark before "event: open". `EventStream.StreamOpens` speaks of the characters written, not the bytes, and Server-sent-event readers strip a leading byte-order mark.
- The timestamp's text form. `LogRecord.timestamp` is `DateTime.Ticks` and is written as that number. System.Text.Json writes a `DateTime` as an ISO 8601 string, which is not modelled.
- Facade.Initialize: never returns false, because the exceptions that reach its catch are left out (above).
- `Logger.attempts` is not a field of the code. It counts recovery attempts only so that the model can state how often recovery runs.
- `Facade.Forward`: its own contract only bounds the count sent. What it sends is stated by `Facade.ForwardSendsPrefix`.
- The empty `Logger` class and the demo window: they are not part of the core.

## Findings

| source | as written | input that shows it | evidently intended | confidence | as-written member | corrected member |
|---|---|---|---|---|---|---|
| WebviewLogger/AdvancedLogger.cs:62-65 | `Initialize` logs its "initialized" record before it sets `_initialized` and `_viewerOperational`. With both flags false that record is buffered and calls `Initialize` again, which logs again, without end. The lock is re-entrant, so this ends in a stack overflow | `Shutdown()` on an initialised logger, then any `Log(...)` or `Initialize()`; likewise after an `Initialize` whose server construction threw (`:75-80`) | re-initialise and return, as the first `Initialize` does | high, not executed | AsWritten.InactiveInitializeNeverReturns | FacadeLemmas.ReinitializeAfterShutdown |
| WebviewLogger/AdvancedLogger.cs:245-258 | the shortcuts call `Log` without forwarding the caller-info arguments, so every record's location is the shortcut's own line in the facade (for example line 246) | `AdvancedLogger.Info("x")` from line 10 of any caller's file | the location names the caller, as `LogException` arranges by forwarding the caller's site | medium, not executed | FacadeLemmas.ShortcutHidesCaller | FacadeLemmas.ShortcutAtReportsCaller |
