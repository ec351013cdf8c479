# All Seeing Eye: the log-ingestion core, modelled in Dafny

All Seeing Eye collects diagnostic log events from a React Native / Expo
app and shows them in a desktop viewer. This project models the core of that
pipeline and proves properties of the model:

- **Normalizer** (`Ingest`, `Json`, `LogTypes`). It finds the case-sensitive
  `[Diagnostics] ` marker in a text line, strips and decodes the JSON after
  it, and turns a decoded object into a `LogEntry`. Each entry gets a fresh
  id, a timestamp (parsed from `ts`/`timestamp` after the `Z` to `+00:00`
  rewrite, or the current time), level and message defaults, an optional
  `data` object and a source tag.
- **History store** (`Store`). An append-only history capped at
  `max_history` (default 1000) that evicts the oldest entry first. After every
  append it calls each subscriber with the new entry and a snapshot, walking a
  copy of the subscriber list, so subscribers that subscribe or unsubscribe
  during a callback do not change the current round. Each call of an
  `unsubscribe` removes one registration of its subscriber, and is a no-op
  when none is left.
- **Metro tailers** (`Metro`, `Runner`, `Process`).
  - `MetroTail` spawns `npm run start` and tails its output on the caller's
    thread. Every error propagates.
  - `MetroRunner` tails on a daemon thread, reports its running state through
    an `on_state` callback and swallows tailing errors.
- **WebSocket server** (`WsServer`). Each message is decoded as bare JSON,
  falling back to the marker rule. The server's thread, event loop, bind and
  scheduled shutdowns are modelled as an explicit phase machine.
- **Controller** (`Controller`, `Status`). It owns one server and one runner
  over a shared store and forwards their state changes to status callbacks.

## How the system is modelled

- **Environment.** Python's library calls are parameters.
  - `json.loads`, `datetime.fromisoformat`, and `str()` of floats, lists and
    dicts are fields of `Ingest.Library`.
  - `uuid.uuid4()` and `datetime.utcnow()` are streams indexed by a draw
    counter in `Environment.Runtime`.
- **Process and thread.** A child process and a thread are small classes.
  The child exiting, a thread's run, a bind completing and a scheduled
  shutdown running are methods the environment calls.
- **Callbacks.**
  - A subscriber's effect on the store is given by a `reaction` function.
  - Status callbacks record every value they receive.
  - `Status.Reported` states exactly which values reached the handler and its
    registered callback between two states.

The code is followed wherever it differs from its documentation:

- `IngestController.start_metro` calls `start_with_command` when a command is
  given, but `MetroRunner` defines no such method. The model therefore shows
  that call raising `AttributeError` after the runner has already been
  replaced (`MissingStartWithCommand`).
- A negative `max_history` keeps the history empty, because every append is
  evicted at once (`Store.Capacity`).
- Both Metro tailers start the child with `stdout=PIPE`, so the branch for a
  missing output pipe cannot be taken in practice. The model keeps it because
  the code has it. The failure that does occur is `Popen` itself raising, for
  example when `npm` or the project directory is missing. It is modelled by
  the `spawnOk` parameter of each `Start`. In `start_metro` it surfaces after
  the runner has already been replaced (`SpawnFailed`).

## Model

| member | source | states |
|---|---|---|
| Json.Truthy | src/all_seeing_eye/core/metro.py:41 | Python truthiness of a decoded value: None, False, zero and empty strings, lists and dicts are falsy (the `if not payload` test, also ws_server.py:82) |
| Json.Str | src/all_seeing_eye/core/ingest.py:38-39 | Python's `str()` of a decoded value; its meaning for None, booleans, strings and ints is stated by `StrFaithful` |
| Json.IntToDecimalSign | src/all_seeing_eye/core/ingest.py:38-39 | `str()` of an int is nonempty and starts with `-` exactly when the int is negative |
| Json.NatDigitsSpec | src/all_seeing_eye/core/ingest.py:38-39 | the decimal digits of a natural are nonempty, all digits, and have no leading zero unless the number is 0 |
| Json.IntToDecimalRoundTrip | src/all_seeing_eye/core/ingest.py:38-39 | reading back the decimal text `str()` gives an int yields that int |
| Json.StrFaithful | src/all_seeing_eye/core/ingest.py:38-39 | `str()` writes None as "None" and booleans as "True"/"False", leaves a string unchanged, and renders an int as decimal text that reads back to the same int |
| Ingest.Find | src/all_seeing_eye/core/ingest.py:15-16 | `find` yields -1 exactly when the marker occurs nowhere, and otherwise the index of its first occurrence |
| Ingest.FindFrom | src/all_seeing_eye/core/ingest.py:15 | the search from `k` finds an occurrence at or after `k` with none between `k` and it, or -1 when none exists at or after `k` |
| Ingest.StripLeading | src/all_seeing_eye/core/ingest.py:18 | the leading half of `strip`, described by `StripLeadingSpec` |
| Ingest.StripTrailing | src/all_seeing_eye/core/ingest.py:18 | the trailing half of `strip`, described by `StripTrailingSpec` |
| Ingest.Strip | src/all_seeing_eye/core/ingest.py:18 | `str.strip()`, described by `StripSpec` and `StripPadded` |
| Ingest.StripLeadingSpec | src/all_seeing_eye/core/ingest.py:18 | `lstrip` leaves a suffix that does not start with whitespace; every dropped character is whitespace |
| Ingest.StripTrailingSpec | src/all_seeing_eye/core/ingest.py:18 | `rstrip` leaves a prefix that does not end with whitespace; every dropped character is whitespace |
| Ingest.StripSpec | src/all_seeing_eye/core/ingest.py:18 | `strip` yields a slice of the input surrounded only by whitespace and neither starting nor ending with whitespace |
| Ingest.StripPadded | src/all_seeing_eye/core/ingest.py:18 | stripping whitespace padding around a body without edge whitespace gives back exactly the body |
| Ingest.MarkerPayload | src/all_seeing_eye/core/ingest.py:15-18 | the text handed to the decoder, described by `MarkerPayloadSpec` |
| Ingest.MarkerPayloadSpec | src/all_seeing_eye/core/ingest.py:15-18 | no text reaches the decoder exactly when the line has no marker; otherwise the decoder gets the stripped text after the first marker |
| Ingest.ParseDiagnosticsLine | src/all_seeing_eye/core/ingest.py:14-22 | no marker gives None; otherwise the result is the decode of the stripped text after the first marker, None when that text is not JSON |
| Ingest.ParseMarkedLine | src/all_seeing_eye/core/ingest.py:14-22 | a line made of the marker, a JSON body and trailing whitespace decodes exactly the body |
| Ingest.MarkerIsExact | src/all_seeing_eye/core/ingest.py:11-17 | the marker is case-sensitive and needs its trailing space: `[diagnostics] {}` and `[Diagnostics]{}` give None |
| Ingest.ReplaceZ | src/all_seeing_eye/core/ingest.py:29 | `replace("Z", "+00:00")`, described by the four lemmas below |
| Ingest.ReplaceZRemovesZ | src/all_seeing_eye/core/ingest.py:29 | after the `Z` rewrite no `Z` is left in the text |
| Ingest.ReplaceZWithoutZ | src/all_seeing_eye/core/ingest.py:29 | the rewrite leaves a text without `Z` unchanged |
| Ingest.ReplaceZAppend | src/all_seeing_eye/core/ingest.py:29 | the rewrite distributes over concatenation |
| Ingest.ReplaceTrailingZ | src/all_seeing_eye/core/ingest.py:29 | a trailing `Z` becomes the `+00:00` offset |
| Ingest.ToLogEntry | src/all_seeing_eye/core/ingest.py:25-42 | `to_log_entry` over a dict payload, with the fresh id and current time supplied; its fields are stated by `ToLogEntryFields` and `TimestampSelection` |
| Ingest.ToLogEntryFields | src/all_seeing_eye/core/ingest.py:25-42 | an entry takes the given id and source; level defaults to "info" and message to "", otherwise their `str()` as `Json.Str` gives it (see `StrFaithful`); data is kept exactly when it is an object; the timestamp is the current time or a successful parse of the selected field |
| Ingest.TimestampField | src/all_seeing_eye/core/ingest.py:26 | `payload.get("ts") or payload.get("timestamp")`; what it selects is stated by `TimestampSelection` |
| Ingest.ResolveTimestamp | src/all_seeing_eye/core/ingest.py:26-33 | the timestamp branch: parse a selected string after the `Z` rewrite, else the current time; its cases are stated by `TimestampSelection` |
| Ingest.TimestampSelection | src/all_seeing_eye/core/ingest.py:26-33 | `ts` wins when truthy, else `timestamp`; only a string is parsed, after the `Z` rewrite; a non-string or a refused parse falls back to the current time |
| Ingest.WorkedExample | src/all_seeing_eye/core/ingest.py:25-42 | the payload `{"ts":"2024-01-01T00:00:00Z","level":"error","message":"boom","data":{"k":1}}` normalises to level error, message boom, data {k: 1} and the parse of `2024-01-01T00:00:00+00:00` |
| Ingest.Classify | src/all_seeing_eye/core/metro.py:41-43 | a missing or falsy payload is skipped; a truthy dict is admitted; any other truthy value makes `to_log_entry` raise |
| Ingest.FirstOccurrenceUnique | src/all_seeing_eye/core/ingest.py:15 | the first occurrence of the marker is unique |
| Store.Appended | src/all_seeing_eye/core/log_store.py:20-22 | the history after one append and the eviction check, described by `AppendedSpec` |
| Store.AppendedSpec | src/all_seeing_eye/core/log_store.py:20-22 | below the bound the entry is appended; at the bound the oldest entry is evicted; the bound is kept and the new entry is always the newest |
| Store.LastN | src/all_seeing_eye/core/log_store.py:20-22 | the last `n` entries form a suffix of length `min(n, len)` |
| Store.FifoLaw | src/all_seeing_eye/core/log_store.py:18-22 | after any appends the history is exactly the newest `max_history` entries of the old history followed by the appended ones, in order |
| Store.AppendedLastN | src/all_seeing_eye/core/log_store.py:20-22 | one append after a truncation is a truncation of the longer sequence |
| Store.HistoryLengthFromEmpty | src/all_seeing_eye/core/log_store.py:12-22 | from an empty store, k appends leave exactly min(k, max_history) entries |
| Store.RemoveFirst | src/all_seeing_eye/core/log_store.py:39-40 | the guarded `remove`, described by `RemoveFirstSpec` and `RemoveFirstCounts` |
| Store.RemoveFirstSpec | src/all_seeing_eye/core/log_store.py:37-40 | the guarded `remove` drops the first registration of the subscriber, and changes nothing when it is absent |
| Store.RemoveFirstCounts | src/all_seeing_eye/core/log_store.py:37-40 | one unsubscribe removes exactly one registration of its subscriber when there is one, and no other |
| Store.UnsubscribeTwice | src/all_seeing_eye/core/log_store.py:37-40 | a subscriber registered once is gone after unsubscribing, and unsubscribing again changes nothing |
| Store.IndexOf | src/all_seeing_eye/core/log_store.py:39-40 | the index of the first registration of a present subscriber |
| Store.Fanout | src/all_seeing_eye/core/log_store.py:26-27 | one notification round makes one call per copied subscriber, in registration order, each with the same entry and snapshot |
| Store.AddAllSpecSnoc | src/all_seeing_eye/core/log_store.py:18-27 | a run of adds followed by one more add is the longer run |
| Store.AddAllSpecHistory | src/all_seeing_eye/core/log_store.py:18-27 | only the appended entries determine the history, whatever the subscribers do |
| Store.AddSpec | src/all_seeing_eye/core/log_store.py:18-27 | the specification of `add`: append and evict, then one call per subscriber of the pre-notification list with the post-eviction snapshot, the live list changed by the callbacks' reactions |
| Store.SubscriberIsolation | src/all_seeing_eye/core/log_store.py:23-27 | when the first subscriber unsubscribes the second during a round, the second is still called in that round, because the list was copied before any callback ran, and is not called in the next |
| Store.LogStore.constructor | src/all_seeing_eye/core/log_store.py:12-16 | a new store has an empty history, no subscribers, no calls made, and the given `max_history` |
| Store.LogStore.Add | src/all_seeing_eye/core/log_store.py:18-27 | the store moves to the `add` specification: append and evict, then notify the copied subscriber list with the post-eviction snapshot; the bound is kept |
| Store.LogStore.Notify | src/all_seeing_eye/core/log_store.py:26-27 | the loop makes every call of the copied list in order and leaves the live list as the callbacks changed it; the history is untouched |
| Store.LogStore.GetAll | src/all_seeing_eye/core/log_store.py:29-31 | returns the current history and changes nothing |
| Store.LogStore.Subscribe | src/all_seeing_eye/core/log_store.py:33-35 | adds one registration at the end; history and calls are untouched; returns the unsubscribe handle |
| Store.LogStore.Unsubscribe | src/all_seeing_eye/core/log_store.py:37-40 | the guarded removal of that subscriber; history and calls are untouched |
| Environment.Runtime.Normalize | src/all_seeing_eye/core/ingest.py:25-42 | one `to_log_entry` call that draws exactly one fresh id and one current time |
| Metro.AdmissionsAppend | src/all_seeing_eye/core/metro.py:39-41 | the per-line decisions of a concatenated stream are the concatenation of those of its parts |
| Metro.LineAdmission | src/all_seeing_eye/core/metro.py:40-43 | the loop body's decision for one line: `parse_diagnostics_line`, then `Classify`; what it skips and admits is stated by `SkippedLineIgnored` and `ScanCrashed` |
| Metro.ScanLength | src/all_seeing_eye/core/metro.py:39-44 | a stream adds at most one entry per line |
| Metro.ScanObjects | src/all_seeing_eye/core/metro.py:41-44 | only dict payloads ever reach `to_log_entry` |
| Metro.ScanAppend | src/all_seeing_eye/core/metro.py:39-44 | tailing a concatenation is tailing the first part and, unless it crashed, then the second |
| Metro.SkippedLineIgnored | src/all_seeing_eye/core/metro.py:40-42 | a line without a truthy payload can be removed from the stream without changing what is ingested |
| Metro.CrashStopsReading | src/all_seeing_eye/core/metro.py:43 | a truthy non-object payload ends the tail: nothing after it is read |
| Metro.EntriesShape | src/all_seeing_eye/core/metro.py:43-44 | one entry per admitted payload, in order; the k-th is that payload normalised with the k-th draw |
| Metro.EntryIds | src/all_seeing_eye/core/metro.py:43 | every entry carries the stream's source, and with distinct `uuid4` values no two entries share an id |
| Metro.IngestedHistory | src/all_seeing_eye/core/metro.py:38-45 | after tailing, the history is the newest `max_history` of the old history followed by the stream's entries |
| Metro.ScanCrashedAdmissions | src/all_seeing_eye/core/metro.py:39-43 | the loop raises exactly when some admission is a truthy non-object |
| Metro.ScanCrashed | src/all_seeing_eye/core/metro.py:39-43 | tailing a stream raises exactly when one of its lines carries a truthy non-object payload |
| Metro.TailFailure | src/all_seeing_eye/core/metro.py:38-45 | a tail raises the payload error exactly when some line carries a truthy non-object; with no such line, a failing read gives the stream error; it completes exactly when there is neither |
| Metro.AddPayload | src/all_seeing_eye/core/metro.py:43-44 | one admitted payload extends the tail's invariant by exactly one entry and one draw |
| Metro.FeedLine | src/all_seeing_eye/core/metro.py:40-44 | one line is decided by the line rule, and only an admitted payload changes the store and draws |
| Metro.FeedLines | src/all_seeing_eye/core/metro.py:38-45 | the loop leaves the store as the entries of the stream's admitted payloads added in order, and reports whether it stopped on a non-object |
| Metro.MetroTail.Tail | src/all_seeing_eye/core/metro.py:38-45 | the stream is ingested up to the first error, and the outcome is that error or completion |
| Metro.MetroTail.TailIter | src/all_seeing_eye/core/metro.py:30-31 | tails the given lines with the given source, "stdin" by default |
| Metro.MetroTail.constructor | src/all_seeing_eye/core/metro.py:12-14 | a tailer on the given store with no child |
| Metro.MetroTail.Start | src/all_seeing_eye/core/metro.py:16-28 | when `Popen` raises, the error propagates with nothing changed; otherwise it spawns `npm run start` in the project directory; without an output pipe it raises before reading anything; otherwise it tails the output with source "metro" |
| Metro.MetroTail.Stop | src/all_seeing_eye/core/metro.py:33-36 | one termination request exactly when there is a live child |
| Process.ChildProcess.Spawn | src/all_seeing_eye/core/metro.py:18-25 | a live child running the given command in the given directory, with no termination requested |
| Process.ChildProcess.Terminate | src/all_seeing_eye/core/metro.py:36 | one more termination request; the child may still be alive |
| Process.ChildProcess.Exit | src/all_seeing_eye/core/metro.py:34 | the child exits, after which `poll()` is no longer None; termination requests are unchanged |
| Process.DaemonThread.Start | src/all_seeing_eye/core/metro_runner.py:53-54 | a started daemon thread is alive |
| Process.DaemonThread.Finish | src/all_seeing_eye/core/metro_runner.py:73-74 | the thread's target has returned, so it is no longer alive |
| Status.StatusCallback.Call | src/all_seeing_eye/core/controller.py:72 | the registered status callback is called with one more value |
| Process.TerminateIfAlive | src/all_seeing_eye/core/metro_runner.py:57-59 | as `MetroTail.Stop`: a termination request only to a live child |
| Status.StateHandler.Handle | src/all_seeing_eye/core/controller.py:70-76 | forwards the value to the registered status callback, if any, and records it |
| Runner.MetroRunner.constructor | src/all_seeing_eye/core/metro_runner.py:18-27 | no child, no thread, not running, no reports |
| Runner.MetroRunner.IsRunning | src/all_seeing_eye/core/metro_runner.py:29-31 | the last value reported, false before any |
| Runner.MetroRunner.SetRunning | src/all_seeing_eye/core/metro_runner.py:76-79 | stores the flag and reports exactly that value to `on_state` |
| Runner.MetroRunner.Start | src/all_seeing_eye/core/metro_runner.py:33-54 | nothing while a reader thread is alive; otherwise a raising `Popen` propagates with nothing changed or reported; else it spawns `npm run start`; without a pipe it reports false and starts no thread; with one it reports true and starts a live reader |
| Runner.MetroRunner.Stop | src/all_seeing_eye/core/metro_runner.py:56-60 | terminates a live child only, and reports false in every case |
| Runner.MetroRunner.Tail | src/all_seeing_eye/core/metro_runner.py:62-74 | ingests the output with source "metro" up to the first error, returns that error instead of raising, reports false, and the thread ends |
| WsServer.MessageAdmission | src/all_seeing_eye/core/ws_server.py:77-84 | `_handle_message`'s decision: `Classify` of `MessagePayload`; stated by `NonJsonMessageIsLine`, `MarkedMessage`, `PlainTextDiscarded` and `NonEmptyJsonStringIsNotAnObject` |
| WsServer.MessagePayload | src/all_seeing_eye/core/ws_server.py:76-81 | a message that decodes as JSON is taken as decoded; only when decoding fails does the marker rule apply |
| WsServer.NonJsonMessageIsLine | src/all_seeing_eye/core/ws_server.py:78-83 | a non-JSON message is treated exactly as a tailed line |
| WsServer.MarkedMessage | src/all_seeing_eye/core/ws_server.py:78-81 | a marked, padded non-JSON message yields the decode of its body |
| WsServer.PlainTextDiscarded | src/all_seeing_eye/core/ws_server.py:78-83 | text that is neither JSON nor marked is discarded |
| WsServer.NonEmptyJsonStringIsNotAnObject | src/all_seeing_eye/core/ws_server.py:77-84 | a message that decodes to a non-empty JSON string is a truthy non-object, so `_handle_message` raises on it; the empty string `""` is falsy and is skipped |
| WsServer.WebSocketIngestServer.constructor | src/all_seeing_eye/core/ws_server.py:16-30 | no thread, no loop, no server, not running, on the given address and default 127.0.0.1:8765 |
| WsServer.WebSocketIngestServer.IsRunning | src/all_seeing_eye/core/ws_server.py:44-46 | the last value reported; true only while serving on an open server |
| WsServer.WebSocketIngestServer.SetRunning | src/all_seeing_eye/core/ws_server.py:88-91 | stores the flag and reports exactly that value |
| WsServer.WebSocketIngestServer.Start | src/all_seeing_eye/core/ws_server.py:32-36 | the first call starts a live thread; every later call changes nothing |
| WsServer.WebSocketIngestServer.RunBegins | src/all_seeing_eye/core/ws_server.py:48-52 | `_run` creates the loop and starts binding; nothing is reported |
| WsServer.WebSocketIngestServer.BindFinished | src/all_seeing_eye/core/ws_server.py:51-62 | a successful bind sets the server and reports true while the thread keeps serving; a failed one reports false and the thread ends |
| WsServer.WebSocketIngestServer.Stop | src/all_seeing_eye/core/ws_server.py:38-42 | nothing before the loop exists; otherwise it schedules one shutdown and reports false at once |
| WsServer.WebSocketIngestServer.Shutdown | src/all_seeing_eye/core/ws_server.py:64-70 | closes the server, stops the loop, reports false again, and the thread ends |
| WsServer.WebSocketIngestServer.HandleMessage | src/all_seeing_eye/core/ws_server.py:76-86 | a message follows the message rule; an admitted one adds exactly one entry tagged "websocket" with one fresh draw, and anything else leaves store and draws unchanged |
| Controller.IngestController.constructor | src/all_seeing_eye/core/controller.py:11-19 | no server, no runner, the given address, no status callbacks |
| Controller.IngestController.SetWsStatusCallback | src/all_seeing_eye/core/controller.py:21-22 | later server state changes go to the callback |
| Controller.IngestController.SetMetroStatusCallback | src/all_seeing_eye/core/controller.py:24-25 | later runner state changes go to the callback |
| Controller.IngestController.ConfigureWs | src/all_seeing_eye/core/controller.py:27-29 | only the stored address changes; an existing server keeps its own |
| Controller.IngestController.StartWs | src/all_seeing_eye/core/controller.py:31-43 | reconfigures only when both host and port are given; keeps a running server; otherwise replaces it with a fresh server on the current address and starts it |
| Controller.IngestController.StopWs | src/all_seeing_eye/core/controller.py:45-48 | nothing without a server; otherwise the server's `stop`: one more pending shutdown and a false report once the loop exists, with its thread, phase and socket state unchanged |
| Controller.IngestController.WsRunning | src/all_seeing_eye/core/controller.py:50-51 | true exactly when there is a server whose last report was true, which implies it is serving |
| Controller.IngestController.StartMetro | src/all_seeing_eye/core/controller.py:53-60 | keeps a running runner; otherwise replaces it; a nonempty command then ends in AttributeError with nothing spawned; else the new runner's `start`, whose `Popen` error surfaces with nothing spawned or reported; without an output pipe the new runner has no reader thread |
| Controller.IngestController.StopMetro | src/all_seeing_eye/core/controller.py:62-65 | nothing without a runner; otherwise the runner's `stop`: a live child is asked to terminate and false is reported, while the reader thread is left as it was |
| Controller.IngestController.MetroRunning | src/all_seeing_eye/core/controller.py:67-68 | true exactly when there is a runner whose last report was true |

## Left out

- Logging through `emit` (core/logger.py) is not modelled; it has no effect on the core's state. The error text `MetroRunner._tail` logs is returned as an error value.
- Concurrency is not modelled.
  - Threads, the store's lock and the asyncio loop are modelled sequentially. Each locked method body runs atomically.
  - Store.LogStore.Add: the notification loop runs in the same atomic step as the append, although the source runs it after releasing the lock. So two concurrent `add` calls cannot interleave their notifications in the model, while in the source subscribers may see them in different orders.
  - A reader thread's whole run of `_tail` is one step (`Runner.MetroRunner.Tail`), so `start` and `stop` calls cannot land between two of its lines.
- `json.loads`, `datetime.fromisoformat`, and `str()` of floats, lists and dicts are inputs, not definitions (`Ingest.Library`).
  - `str()` of strings, ints, booleans and None is modelled.
- `uuid.uuid4()` and `datetime.utcnow()` are injected streams. Their uniqueness is a hypothesis (`Environment.DistinctIds`), not a property of the model.
- A subscriber or status callback that raises is not modelled. Callbacks are total, and each makes at most one `subscribe`/`unsubscribe` call per notification.
- A subscriber that calls `store.add` from inside its callback is not modelled, although the source allows it, since notification runs after the lock is released (log_store.py:23-27). A reaction is at most one `subscribe` or `unsubscribe`.
- Subscribers are identified by handles. Two registrations of the same callable are the same handle.
- Messages are text only. For a binary WebSocket frame `_handle_message` receives `bytes`: `json.loads` decodes valid JSON from it, but on a decode failure `parse_diagnostics_line` calls `bytes.find` with a `str` and raises `TypeError`. Neither is modelled.
- `WebSocketIngestServer._handler` is not modelled (ws_server.py:72-74, the per-connection loop of messages). Neither is the fact that one message raising ends its connection. Only the per-message rule `HandleMessage` is.
- WsServer.WebSocketIngestServer.Shutdown: modelled only while serving. A scheduled `_shutdown` that runs before the bind has completed is not modelled.
- The bind itself, the socket address and `wait_closed` are abstract. The outcome of a bind is a parameter of `BindFinished`.
- Whether the child's output pipe is attached is a parameter. Its output is the sequence of lines it writes, plus a flag saying whether reading then raised.
- `Ingest.Library.loads` yields None only for `JSONDecodeError`, the one exception the source catches. Other exceptions that `json.loads` raises propagate in the source and are not modelled: `RecursionError` on very deep nesting, and `ValueError` on an integer literal over Python's digit limit. In the source they would end `MetroTail._tail`, end the `MetroRunner` reader (which reports False), and escape `_handle_message`.
- Json.Str: a JSON object is a `map`, so the order of its keys is not kept, although Python's dicts keep insertion order. So `str()` of a dict-valued `level` or `message` cannot be told apart for two payloads that differ only in key order. For example, `{"b": 1, "a": 2}` and `{"a": 2, "b": 1}` become one value.
- Ingest.ToLogEntry: for the same reason, the key order of `data` and of a dict-valued `level` or `message` is not modelled.
- A JSON float is a `real`, so the NaN and infinities that `json.loads` accepts (all truthy) are not among the model's values. Since `loads` is an input, a truthy non-object payload is still reachable through other values.
- Calendar arithmetic and time zones of `datetime` values are not modelled. A `DateTime` is the record `fromisoformat` returns.
- The UI, the app and headless entry points, the notifiers and the port-health check are not part of this model.
