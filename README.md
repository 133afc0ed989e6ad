# Vancix OS session core in Dafny

Vancix OS is a browser voice assistant. Its one React component, `App.tsx`, does four jobs:

- It streams the microphone to a realtime speech model.
- It plays the model's audio replies back to back.
- It answers the model's tool calls (open a URL, dial, draft an SMS, read the clock, list the contacts, manage a schedule).
- It shows a command log and an "Intel Feed" of search links.

This project models the bookkeeping behind those jobs and proves properties of it. The modules are:

- `VancixTypes` (`types.dfy`) holds the value types:
  - the five assistant states;
  - log entries, contacts and schedule entries;
  - the mock contact list and the initial schedule.
- `ToolSchema` (`tools.dfy`) holds the six function declarations handed to the model, and the dispatcher's chain of name tests (`Lookup`).
- `BoundedLists` (`lists.dfy`) holds the pure state updaters:
  - the command log, newest first and capped at 50;
  - the grounding feed, where web links are filtered, prepended and capped at 5;
  - the schedule entry an `add` appends, with its "TBD" / "Unknown Event" defaults.
- `Playback` (`playback.dfy`) holds the timeline arithmetic. A chunk starts at `max(cursor, now)` and pushes the cursor past its own end. Successive chunks neither overlap nor leave a gap when one arrives before the previous one ends.
- `Dispatcher` (`dispatcher.dfy`) holds `handleToolCall` as functions on values:
  - what one call produces (its response payload, its browser action, its schedule entry);
  - the batch of responses, one per call and in call order;
  - the isolation of a failing call.
- `VancixSession` (`session.dfy`) holds the class `Session`. Its fields are:
  - the component state: `state`, `hasStarted`, `logs`, `feed`, `schedule`;
  - the playback refs: `cursor` for `nextStartTimeRef`, `active` for `sourcesRef`;
  - the transport's outbox (`sent`) and the browser actions performed (`effects`).

  It has one method per event: `startSession`, `onopen`, `onmessage` (the tool-call part, then the content part), a source's `onended`, `onclose` and `onerror`. `Valid()` is the class invariant:
  - both lists stay within their caps;
  - every active source id has been issued;
  - the placements of all sources ever scheduled (a ghost field) are in timeline order, without overlap, and all end by the cursor.

Inputs the browser or the network provides are parameters:
- whether an API key is present;
- which setup step throws;
- whether `window.open` throws for a call, and with what message;
- the output clock `now`;
- the decoded chunk's duration, or that decoding failed;
- the device clock's text;
- the log timestamp.

Four behaviours of the code worth noting:
- **Missing API key.** The code alerts and returns before touching any state. The state stays as it was (Idle on first use), and it does not move to Error.
- **Error is not terminal.** A later message, `onended` or `onclose` sets its own state regardless of Error.
- **Undecodable audio.** The handler has already set Speaking and moved the cursor up to `now` when decoding fails. The rejection then skips the grounding part of the same message.
- **Refused connection.** `startSession` does not await the connection's promise, so a refused connection never reaches its `catch`. The session stays started and Listening with nothing logged, and the failure shows only through `onerror` or `onclose`.

## Model

| member | source | states |
|---|---|---|
| ToolSchema.Lookup | App.tsx:67-93 | the tool a call's name selects, if any, always has that name |
| ToolSchema.LookupMatchesSchema | App.tsx:67-93 | the name tests accept exactly the six declared names, and the tools that call `window.open` are exactly openUrl, makeCall and sendMessage |
| ToolSchema.SchemaWellFormed | constants.ts:41-108 | every declaration's required arguments are among its parameters, and the six names are pairwise distinct |
| BoundedLists.AddLog | App.tsx:55-57 | the new entry is first, the previous entries follow in order, and the length is min(old + 1, 50) |
| BoundedLists.AddLogsNewestFirst | App.tsx:55-57 | after a run of entries the log is those entries newest first, then the older log, cut to 50 |
| BoundedLists.LogKeepsMostRecent | App.tsx:56 | after 50 or more entries the log holds exactly the 50 most recent, newest first |
| BoundedLists.WebLinks | App.tsx:211-213 | every link has a non-empty uri, and there are never more links than chunks |
| BoundedLists.WebLinksAppend | App.tsx:211-213 | filtering distributes over concatenation, so links keep chunk order |
| BoundedLists.WebLinksAllKept | App.tsx:211-213 | when every chunk has a web uri, link i is chunk i's title and uri |
| BoundedLists.WebLinksNoneKept | App.tsx:212 | chunks without a web uri give no links |
| BoundedLists.UpdateFeed | App.tsx:209-214 | an absent or empty chunk list leaves the feed alone; otherwise the new links come first in chunk order, then the old feed, cut to 5 |
| BoundedLists.FeedBounded | App.tsx:214 | the feed never exceeds 5, and when the new links alone fill it, it holds the first 5 of them |
| BoundedLists.ArgOr | App.tsx:87 | a missing or empty argument yields the default, and any other yields the argument |
| BoundedLists.NewEntry | App.tsx:87 | the added entry takes the given time and event, with "TBD" and "Unknown Event" for missing or empty ones, and neither field is empty |
| BoundedLists.AppendEntry | App.tsx:88 | exactly one entry is appended at the end, earlier entries are untouched, and the multiset grows by that entry |
| Playback.StartOf | App.tsx:182 | a chunk starts at the later of the cursor and the output clock, never before either |
| Playback.Timeline | App.tsx:182-204 | each placement keeps its chunk's duration and starts no earlier than that chunk's arrival; the first starts exactly at the later of the cursor and its arrival |
| Playback.TimelineStep | App.tsx:182-204 | every later chunk starts exactly at the later of its predecessor's end and its own arrival, so a chunk that comes late starts when it arrives |
| Playback.CursorAfter | App.tsx:203-204 | the cursor never decreases |
| Playback.NoOverlapNoGap | App.tsx:182-204 | each chunk starts no earlier than the previous one ends, and exactly when it ends if it arrived before then |
| Playback.CursorAfterIsLastEnd | App.tsx:203-204 | the cursor ends where the last chunk ends, so every scheduled chunk ends by the cursor |
| Dispatcher.Show | App.tsx:69-77 | an argument that is present renders as itself, and a missing one as "undefined" |
| Dispatcher.Execute | App.tsx:63-97 | an unknown name gives `{status:"ok"}` and nothing else; a known name never does; the payload is an error exactly when a window-opening tool throws, and it carries that message; a browser action happens exactly when a window-opening tool does not throw; an entry is added exactly for manageSchedule with action "add", answered by a confirmation; any other manageSchedule action lists the schedule the handler reads; tool by tool: openUrl answers "Opened " plus the url and opens a tab, makeCall answers "Calling " plus the number and dials `tel:` plus it, sendMessage answers "Message draft opened for " plus the number and composes an SMS with the message, getDeviceTime gives the clock text, getContacts the mock contacts, and an add answers "Added <event> at <time> to schedule." |
| Dispatcher.Responses | App.tsx:59-106 | as written, with "list" reading one fixed schedule: one response per call |
| Dispatcher.ResponsesAt | App.tsx:99-103 | as written: response i answers call i, carrying its id and name |
| Dispatcher.AddedEntries | App.tsx:85-88 | a batch adds at most one entry per call |
| Dispatcher.AddedEntriesHas | App.tsx:86-88 | every `add` call in the batch contributes its entry |
| Dispatcher.AddedEntriesNone | App.tsx:85-92 | a batch without `add` calls leaves the schedule alone |
| Dispatcher.Effects | App.tsx:67-78 | a batch performs at most one browser action per call |
| Dispatcher.ExecutingLogs | App.tsx:63 | exactly one entry per call, and entry i is "Executing: " plus call i's name |
| Dispatcher.BatchStep | App.tsx:62-104 | one more call extends the responses, the added entries, the browser actions and the log by exactly that call's own |
| Dispatcher.StaleListMissesAdd | App.tsx:85-92 | as written, an `add` of "Standup" at "9:00 AM" and then a "list" in one batch: the entry is added, yet the list shows only the schedule the closure captured, without it; a "list" in a later batch shows that same captured schedule |
| Dispatcher.ResponsesLive | App.tsx:59-106 | the corrected batch: one response per call, with "list" reading the live schedule |
| Dispatcher.ResponsesLiveAt | App.tsx:62-103 | response i answers call i with its id and name, against the schedule followed by every entry the earlier calls added |
| Dispatcher.FailureIsolated | App.tsx:66-97 | a window-opening call that throws gets its error, and the batch keeps its length; every other response is exactly what it would have been otherwise |
| Dispatcher.LiveListSeesEarlierAdd | App.tsx:85-92 | a "list" sees every entry an earlier `add` in the same batch added |
| Dispatcher.AddThenListLive | App.tsx:85-92 | `add` then "list" lists the old schedule plus the new entry, and the entry's count rises by exactly one |
| VancixSession.Session.constructor | App.tsx:16-33 | Idle, not started, empty log, feed and outbox, the initial schedule, and a zero cursor with no active source |
| VancixSession.Session.AddLogEntry | App.tsx:55-57 | the log is updated by `AddLog`, and the caps still hold |
| VancixSession.Session.StartSession | App.tsx:109-237 | without a key nothing changes; otherwise the session is started; the microphone is requested only if the client and audio contexts were created; success, including a connection that is later refused, leaves Listening with the log untouched; a failing client, audio-context or microphone step leaves Error with "Initialization Failed" logged |
| VancixSession.Session.OnOpen | App.tsx:141-142 | "Vancix OS Online. Systems Nominal." is logged |
| VancixSession.Session.DispatchOne | App.tsx:62-103 | one call is logged, answered against the current schedule, and its entry and browser action are appended |
| VancixSession.Session.DispatchNext | App.tsx:62-104 | a pass of the loop takes the log, the schedule, the browser actions and the responses from the first i calls to the first i + 1 |
| VancixSession.Session.DispatchAll | App.tsx:60-104 | after the loop the responses are `ResponsesLive` of the batch; the schedule gains `AddedEntries`, the browser actions gain `Effects`, and the log gains the "Executing" entries |
| VancixSession.Session.HandleToolCall | App.tsx:59-107 | exactly one batch is sent: the responses to every call in order; schedule, browser actions and log change as `DispatchAll` states, and nothing else changes |
| VancixSession.Session.PlayChunk | App.tsx:177-205 | Speaking; the cursor moves to `StartOf`; a decoded chunk gets a fresh source id, is placed at that start, is added to the active set and pushes the cursor by its duration; an undecodable chunk stops there |
| VancixSession.Session.OnToolCallMessage | App.tsx:168-174 | Thinking; a batch is answered only when `functionCalls` is present, and otherwise log, schedule, actions and outbox are unchanged |
| VancixSession.Session.OnServerContent | App.tsx:176-216 | audio sets Speaking and is played; unless decoding failed, the grounding chunks update the feed |
| VancixSession.Session.OnMessage | App.tsx:165-217 | audio leaves Speaking, a tool call without audio Thinking, and otherwise the state is unchanged; the outbox, schedule, actions, log, feed, cursor and active set change exactly as the two parts state |
| VancixSession.Session.OnEnded | App.tsx:196-201 | the source leaves the active set, and the state becomes Listening exactly when the set is then empty, otherwise unchanged |
| VancixSession.Session.OnClose | App.tsx:218-222 | "Connection Closed" is logged, Idle, and the start button returns |
| VancixSession.Session.OnError | App.tsx:223-227 | "Error: " and the error's text are logged, and the state is Error |
| VancixSession.TwoChunksScenario | App.tsx:196-205 | two chunks: after the first ends the state is still Speaking, and after the second it is Listening |
| VancixSession.MissingKeyScenario | App.tsx:110-114 | without a key: Idle, not started, and the microphone never requested |
| VancixSession.ConnectRefusedScenario | App.tsx:116-236 | a refused connection leaves the started session Listening with nothing logged, and only `onerror` then moves it to Error |
| VancixSession.ErrorNotAbsorbingScenario | App.tsx:176-227 | after `onerror`, audio still sets Speaking and its end sets Listening |
| VancixSession.LiveScheduleScenario | App.tsx:85-92 | with the corrected dispatcher, in a started session, `add` then "list" in one batch lists the initial entry and the new one, and the schedule equals that list |

## Left out

- The PCM codec (`createPcmBlob`, `decodeAudioData`, `base64ToUint8Array`) lives in `utils/audioUtils`, which is not part of this model. A decoded chunk is its duration; a chunk the decoder rejects is `Undecodable`.
- The RMS volume and every other floating-point computation are left out. Timeline times are non-negative reals.
- Web Audio graph construction, `getUserMedia`, the transport connection, `sendRealtimeInput` and the microphone wiring done in `onopen` are left out. What is modelled:
  - the setup steps that can throw inside `startSession`'s `try` (`failAt`: client, audio contexts, microphone);
  - `onopen`'s log line.

  A refused connection is not a `failAt` step, because its promise is not awaited. It reaches the model only as a later `onerror` or `onclose`.
- Async interleaving is left out:
  - the `await` on decoding;
  - the `sessionPromise.then` that defers `handleToolCall`;
  - React's batching of `setState`.

  Each message and each `onended` is one atomic step. In the same way, the schedule entry an `add` queues is applied before the next call runs.
- `window.open` is a recorded `Effect`. Any exception it raises is a per-call input, and its text becomes the error payload. The percent-encoding of the SMS body is not modelled.
- `getDeviceTime` returns the clock text passed in. `getContacts` returns the fixed mock contacts.
- `console.error`, the `alert` for a missing key, the clock interval, geolocation, rendering, and `stopSession`'s page reload are left out.
- Tool arguments are a map from names to strings. A call whose `args` object is missing altogether is not modelled.
- `VancixSession.Session.StartSession`: the model does not reset the cursor or the active set across sessions, because the code does not either. It does not model starting twice, because the start button is hidden while a session runs.
- VancixSession.Session.DispatchOne: answers a "list" from the live schedule, as the corrected dispatcher does. The code answers from the schedule captured when the session started (see Findings), in this batch and in every later one.
- VancixSession.Session.DispatchNext: its responses are those of the corrected `ResponsesLive`, not the captured-schedule answers of the code.
- VancixSession.Session.DispatchAll: its batch is the corrected `ResponsesLive`. The code's batch is `Responses` against the schedule captured at start.
- VancixSession.Session.HandleToolCall: sends the corrected `ResponsesLive` batch. A "list" after an `add` in the same batch or an earlier one includes that entry, which the code's list never does.
- VancixSession.Session.OnToolCallMessage: the batch it sends is the corrected one, as for `HandleToolCall`.
- VancixSession.Session.OnMessage: the batch it sends is the corrected one, as for `HandleToolCall`.
- VancixSession.LiveScheduleScenario: shows the corrected behaviour. In the code the list would show only "System Diagnostics".
- `VancixSession.Session.StartSession`: it does not order `hasStarted`/Listening before the microphone request within the one step. It only states which of them happened.

## Findings

| source | as written | input that shows it | evidently intended | confidence | as-written member | corrected member |
|---|---|---|---|---|---|---|
| App.tsx:85-92 | A "list" answers with `schedule` as captured by the callbacks `startSession` created. `add` only queues its entry through the state updater. So for the whole session a list never shows an entry added since the session started, whether it came in an earlier batch or earlier in the same batch. | In one batch: `manageSchedule` with action "add", event "Standup", time "9:00 AM", then `manageSchedule` with action "list". The list shows only "System Diagnostics". | A "list" returns the schedule with every entry added before it, the new one exactly once. | medium, not executed | Dispatcher.StaleListMissesAdd | Dispatcher.ResponsesLive |

The session class uses the corrected batch. `DispatchOne` answers against the current schedule, which earlier calls and earlier batches have already extended. The as-written answers are `Dispatcher.Responses` against the schedule captured at start. The class's members that differ from the code on this point are listed under "## Left out".
