# Voice recorder page and transcript store, in Dafny

This project models two parts of a small Next.js app.

The first is the **recording session controller** of the recorder page
(`pages/recorder/index.tsx`). It is a small event-driven state machine:
- the session state: idle (`null`), `"recording"` or `"paused"`;
- an elapsed-seconds counter driven by a 1000 ms interval;
- the recorder's chunk buffer, which is assembled into one recording when the
  recorder stops;
- the URL of the last recording;
- a "saved" toast that a 2000 ms timeout dismisses.

The second is the **in-memory transcript store** of the data provider
(`components/data-context.tsx`). It is a map from record ids to records
`{id, text, scripts, summary?}`, with `create`, `get` and `update`.

Files:
- `wrappers.dfy` defines `Option`.
- `data_context.dfy` (module `DataContext`) holds the store as pure functions
  over `map<string, Data>`, with lemmas.
- `recorder_spec.dfy` (module `RecorderSpec`) holds the page as values.
  - A `View` holds the page's React state and refs, plus the browser pieces the
    page talks to, as abstract values.
  - Those browser pieces are a table of live host timers, the next handle the
    host hands out, the object URLs minted so far, pending microphone requests,
    and the commands sent to each media recorder.
  - Each handler is a function, and `Next` delivers one event: a button press,
    a recorder callback, or a timer callback.
  - `Run` delivers a sequence of events.
- `recorder_properties.dfy` (module `RecorderProperties`) holds the page's
  consistency invariant `Sound`, proofs that delivered events keep it, and
  properties of runs: the counter, the chunk buffer, state transitions, the
  toast, and concrete event sequences.
- `recorder_page.dfy` (module `RecorderPage`) models the page as it is written:
  - a class `Page` whose fields are the state, refs and host pieces;
  - one method per handler, proved to move `Snapshot()` exactly as the matching
    `RecorderSpec` function does;
  - a `Handle` method that routes every event to its handler;
  - the loop that stops the stream's audio tracks.

## Model

| member | source | states |
|---|---|---|
| DataContext.Empty | components/data-context.tsx:42 | the provider's initial database holds no record: `get` is undefined for every id |
| DataContext.Get | components/data-context.tsx:51 | lookup is undefined exactly for ids not stored, and otherwise returns the stored record |
| DataContext.Create | components/data-context.tsx:44-49 | afterwards `get(data.id)` is `data`, every other id looks up as before, and the key set gains only `data.id` |
| DataContext.WithSummary | components/data-context.tsx:60-63 | the record spread with an optional summary keeps id, text and scripts; the summary is replaced only when one is given |
| DataContext.Update | components/data-context.tsx:53-68 | an absent id leaves the database as it was; the key set never changes; other ids are untouched; a present record keeps id, text and scripts and gets the summary exactly when one is given |
| DataContext.GetAfterCreate | components/data-context.tsx:44-51 | `get(d.id)` after `create(d)` returns `d` |
| DataContext.CreateOverwrites | components/data-context.tsx:45-48 | a second `create` with the same id replaces the first record entirely |
| DataContext.UpdateWithoutSummaryIsIdentity | components/data-context.tsx:56-62 | `update` without a summary leaves the database equal to before |
| DataContext.UpdateIdempotent | components/data-context.tsx:53-68 | applying the same update twice equals applying it once |
| DataContext.UpdateAfterCreate | components/data-context.tsx:44-64 | `update` right after `create` of the same id yields the created record with the new summary |
| DataContext.OperationsKeepWellKeyed | components/data-context.tsx:44-68 | both updaters keep every record stored under its own id |
| RecorderSpec.Init | pages/recorder/index.tsx:6-13 | the page mounts idle, with time 0, no timer handle, no recorder, an empty buffer, no recording URL, the toast hidden and no host timer |
| RecorderSpec.StartTimer | pages/recorder/index.tsx:15-19 | a fresh 1000 ms interval is registered under a new handle and stored in timerRef; the live intervals grow by exactly that handle; an interval already live is not cleared; time, state, buffer and toast are unchanged |
| RecorderSpec.StopTimer | pages/recorder/index.tsx:21-26 | timerRef ends empty; exactly the interval it held is cleared; with no timer nothing changes; time and state are unchanged |
| RecorderSpec.Tick | pages/recorder/index.tsx:16-18 | one firing of a live interval adds exactly 1 to the counter and changes nothing else |
| RecorderSpec.ShowToast | pages/recorder/index.tsx:28-30 | the toast ends visible; when it was already visible nothing changes; otherwise one 2000 ms timeout is scheduled and remembered for cleanup, and no interval is added or removed |
| RecorderSpec.ToastTimeout | pages/recorder/index.tsx:119-126 | the dismissal hides the toast and its timeout is gone; counter, state, timer and buffer are untouched |
| RecorderSpec.Unmount | pages/recorder/index.tsx:124 | the effect cleanup cancels exactly the pending dismissal and no other timer |
| RecorderSpec.OnStartRecord | pages/recorder/index.tsx:32-37 | the state becomes recording, the counter 0 and the recording URL null, and a new ticker is live; buffer, recorder, URLs and toast are unchanged |
| RecorderSpec.OnStopRecord | pages/recorder/index.tsx:40-48 | the URL is stored, the state becomes idle, the ticker is stopped, the toast becomes visible, and the counter keeps its value; when the host's next handle is not already live, the live intervals are exactly the old ones minus timerRef's |
| RecorderSpec.Record | pages/recorder/index.tsx:50-55 | pressing record only asks for the microphone: state, counter, recorder, timers, buffer and toast are unchanged |
| RecorderSpec.OnStreamAcquired | pages/recorder/index.tsx:56-83 | a new recorder asking for audio/webm is stored in the ref and started; the state is not yet recording |
| RecorderSpec.JoinParts | pages/recorder/index.tsx:72-74 | the blob's bytes are the parts' bytes concatenated: empty for no parts, opening with the first part's bytes and closing with the last part's |
| RecorderSpec.Send | pages/recorder/index.tsx:87-97 | stop, pause and resume change nothing without a recorder, and otherwise issue exactly one call to the current recorder |
| RecorderSpec.OnDataAvailable | pages/recorder/index.tsx:66-68 | the chunk is appended after every chunk already buffered, and nothing else changes |
| RecorderSpec.OnRecorderStop | pages/recorder/index.tsx:70-81 | with an empty buffer nothing changes; otherwise every buffered chunk, in order, becomes one blob typed like the first chunk, a URL for it is minted and stored, the buffer is emptied, the page is idle with the ticker stopped and the toast shown, and the counter is unchanged |
| RecorderSpec.PressPause | pages/recorder/index.tsx:107-117 | idle: nothing changes; recording: paused with timerRef empty; paused: recording with a fresh live ticker; the counter and buffer are kept in both directions |
| RecorderSpec.NullishSlotShowsState | pages/recorder/index.tsx:148-157 | as written, in recording or paused, the state's own name is rendered as text in the slot and the record button is not |
| RecorderSpec.NullishSlotAsWritten | pages/recorder/index.tsx:148-157 | the slot as written always renders one node, and it is a button exactly when idle |
| RecorderSpec.NullishSlot | pages/recorder/index.tsx:148-157 | the slot as intended renders nothing but the record button, and the record button exactly when idle |
| RecorderSpec.Rendered | pages/recorder/index.tsx:132-190 | the column, with the intended slot, holds buttons only, and the record button exactly when idle |
| RecorderSpec.Handler | pages/recorder/index.tsx:135-183 | the `onClick` bindings: only the record button reaches `onPressRecord` and only save reaches `onPressSave`; the two mic toggles and the pause button reach `onPressPause` |
| RecorderSpec.Controls | pages/recorder/index.tsx:132-190 | the record button is on screen iff idle, the black mic toggle and the pause button iff recording, the resume toggle iff paused, and save iff recording or paused |
| RecorderSpec.Offered | pages/recorder/index.tsx:128-190 | the record intent is reachable iff idle; save and the pause toggle are reachable iff a session is active |
| RecorderSpec.Next | pages/recorder/index.tsx:62-126 | no contract of its own: it routes each event to the handler the page registered for it (the presses to 99-117, the recorder callbacks to 62-81, the timer callbacks to 16-18 and 121-123); what each handler does is stated by that handler's function |
| RecorderProperties.InitSound | pages/recorder/index.tsx:6-13 | the mounted page satisfies the consistency invariant |
| RecorderProperties.StopTimerKeepsTicker | pages/recorder/index.tsx:21-26 | when the live intervals are exactly the one in timerRef, none are live after stopTimer |
| RecorderProperties.SoundPressPause | pages/recorder/index.tsx:107-117 | the toggle keeps the invariant |
| RecorderProperties.SoundStreamGranted | pages/recorder/index.tsx:56-60 | creating the recorder keeps the invariant |
| RecorderProperties.SoundStart | pages/recorder/index.tsx:62-64 | an `onstart` outside recording keeps the invariant |
| RecorderProperties.SoundStopped | pages/recorder/index.tsx:70-81 | an `onstop` with a non-empty buffer keeps the invariant |
| RecorderProperties.SoundTimeout | pages/recorder/index.tsx:121-123 | the toast's dismissal keeps the invariant |
| RecorderProperties.SoundStep | pages/recorder/index.tsx:15-126 | every deliverable event except an `onstart` while recording keeps the invariant |
| RecorderProperties.OrderlyIsAdmissible | pages/recorder/index.tsx:62-81 | a run whose events are each deliverable in turn is a run `Run` can evaluate |
| RecorderProperties.SoundRun | pages/recorder/index.tsx:15-126 | the invariant holds after every run that has no `onstart` while recording |
| RecorderProperties.SecondStartOrphansInterval | pages/recorder/index.tsx:15-64 | a second `onstart` while recording replaces timerRef; the old interval stays live even after stopTimer, and the invariant is broken |
| RecorderProperties.StateTransitions | pages/recorder/index.tsx:32-117 | the state becomes recording only on `onstart` or on the toggle from paused, and paused only on the toggle from recording; it becomes idle only on `onstop` with data; pressing record and getting the stream leave it alone |
| RecorderProperties.PressPauseToggles | pages/recorder/index.tsx:107-117 | recording goes to paused with no live interval after a pause call; paused goes to recording with exactly one live interval after a resume call; idle is untouched; the counter is kept |
| RecorderProperties.TimeStep | pages/recorder/index.tsx:16-33 | one event leaves the counter alone, adds 1 on a tick, or resets it to 0 on `onstart` |
| RecorderProperties.TimeMonotone | pages/recorder/index.tsx:15-48 | without an `onstart`, the counter never decreases over a run |
| RecorderProperties.PausedTimeFrozen | pages/recorder/index.tsx:107-111 | in a consistent page that is not recording, no event other than `onstart` changes the counter |
| RecorderProperties.JoinPartsAppend | pages/recorder/index.tsx:72-74 | joining the parts of a concatenation is the concatenation of the joins |
| RecorderProperties.DataOfAppend | pages/recorder/index.tsx:66-68 | the chunks delivered by a concatenated run are those of its parts, in order |
| RecorderProperties.RunAppend | pages/recorder/index.tsx:15-126 | running two event sequences one after the other is running their concatenation |
| RecorderProperties.ChunksAccumulate | pages/recorder/index.tsx:66-68 | until a recorder stops, the buffer is its old contents followed by every delivered chunk, in order |
| RecorderProperties.NextChunks | pages/recorder/index.tsx:66-68 | one event other than a stop appends its chunk, if it carries one, and otherwise leaves the buffer alone |
| RecorderProperties.StopAssemblesEveryChunk | pages/recorder/index.tsx:66-81 | from an empty buffer, the recording a stop produces is the join of every chunk delivered, typed like the first, and the buffer is empty after |
| RecorderProperties.JoinPartsPrefix | pages/recorder/index.tsx:72-74 | the join of leading parts is a prefix of the join of all parts, and the first part fixes the type |
| RecorderProperties.ChunksBeforePauseArePrefix | pages/recorder/index.tsx:66-117 | for a session that delivers chunks, is paused, and goes on without a stop, the recording the stop mints opens with the bytes of the chunks delivered before the pause and has their type |
| RecorderProperties.RunCons | pages/recorder/index.tsx:15-126 | a run is its first event followed by the rest |
| RecorderProperties.ScenarioStart | pages/recorder/index.tsx:50-68 | record, stream, `onstart` and three ticks from mount: recording, counter 3, invariant holds |
| RecorderProperties.ScenarioToggle | pages/recorder/index.tsx:107-117 | pause, resume and two ticks of the new interval add 2 to the counter and return to recording |
| RecorderProperties.ScenarioSave | pages/recorder/index.tsx:66-105 | save, one chunk and `onstop`: idle, the counter kept, one new URL for the chunk, the toast shown, timerRef empty, and (when the host's next handle is not already live) the live intervals exactly the old ones minus timerRef's |
| RecorderProperties.PauseResumeScenario | pages/recorder/index.tsx:15-117 | three ticks, pause, resume, two ticks and save give counter 5 and exactly one recording, made of the delivered chunk, with the page idle and the toast shown |
| RecorderProperties.DoubleStart | pages/recorder/index.tsx:15-64 | two presses of record before the first `onstart` lead to two recorders starting; the page records on handle 2 while the host still runs both intervals 1 and 2 |
| RecorderProperties.DoubleRecordLeaksTicker | pages/recorder/index.tsx:15-157 | after that double start and a save, the page is idle with no timer handle, yet exactly interval 1 is still live and it still raises the counter |
| RecorderProperties.RetriggerKeepsDismissal | pages/recorder/index.tsx:119-126 | showing the visible toast again schedules nothing and keeps the first dismissal |
| RecorderProperties.ShowToastSchedulesOne | pages/recorder/index.tsx:119-123 | showing the hidden toast leaves exactly one pending timeout, 2000 ms, the one remembered for cleanup |
| RecorderProperties.DismissalAndTeardown | pages/recorder/index.tsx:121-124 | after the dismissal, and after unmount, no timeout is pending |
| RecorderPage.Page.constructor | pages/recorder/index.tsx:6-13 | the page's fields start as `Init` |
| RecorderPage.Page.StartTimer | pages/recorder/index.tsx:15-19 | the fields move as `RecorderSpec.StartTimer` |
| RecorderPage.Page.StopTimer | pages/recorder/index.tsx:21-26 | the fields move as `RecorderSpec.StopTimer` |
| RecorderPage.Page.ShowToast | pages/recorder/index.tsx:28-126 | the fields move as `RecorderSpec.ShowToast` |
| RecorderPage.Page.OnStartRecord | pages/recorder/index.tsx:32-37 | the fields move as `RecorderSpec.OnStartRecord` |
| RecorderPage.Page.OnStopRecord | pages/recorder/index.tsx:40-48 | the fields move as `RecorderSpec.OnStopRecord` |
| RecorderPage.Page.Record | pages/recorder/index.tsx:50-55 | the fields move as `RecorderSpec.Record` |
| RecorderPage.Page.OnStreamAcquired | pages/recorder/index.tsx:56-83 | the fields move as `RecorderSpec.OnStreamAcquired` |
| RecorderPage.Page.OnRecorderStart | pages/recorder/index.tsx:62-64 | the fields move as `RecorderSpec.OnStartRecord` |
| RecorderPage.Page.OnDataAvailable | pages/recorder/index.tsx:66-68 | the fields move as `RecorderSpec.OnDataAvailable`: the chunk is appended to the buffer and nothing else changes |
| RecorderPage.Page.OnRecorderStop | pages/recorder/index.tsx:70-81 | the fields move as `RecorderSpec.OnRecorderStop`; the handler throws exactly when the buffer is empty, and then the stream is untouched; otherwise every audio track ends |
| RecorderPage.Page.Stop | pages/recorder/index.tsx:87-89 | the fields move as `RecorderSpec.Send` with a stop call |
| RecorderPage.Page.Pause | pages/recorder/index.tsx:91-93 | the fields move as `RecorderSpec.Send` with a pause call |
| RecorderPage.Page.Resume | pages/recorder/index.tsx:95-97 | the fields move as `RecorderSpec.Send` with a resume call |
| RecorderPage.Page.OnPressRecord | pages/recorder/index.tsx:99-101 | the fields move as `RecorderSpec.Record` |
| RecorderPage.Page.OnPressSave | pages/recorder/index.tsx:103-105 | the fields move as a stop call |
| RecorderPage.Page.OnPressPause | pages/recorder/index.tsx:107-117 | the fields move as `RecorderSpec.PressPause` |
| RecorderPage.Page.OnInterval | pages/recorder/index.tsx:16-18 | the fields move as `RecorderSpec.Tick` |
| RecorderPage.Page.OnToastTimeout | pages/recorder/index.tsx:121-124 | the fields move as `RecorderSpec.ToastTimeout` |
| RecorderPage.Page.Unmount | pages/recorder/index.tsx:124 | the fields move as `RecorderSpec.Unmount` |
| RecorderPage.Page.Handle | pages/recorder/index.tsx:50-190 | delivering any deliverable event to the page moves its fields exactly as `RecorderSpec.Next`; an `onstop` with buffered chunks ends every audio track of the stream, and every other event leaves the stream untouched |
| RecorderPage.StopAudioTracks | pages/recorder/index.tsx:80 | every track of the stream is stopped |

## Left out

- Browser APIs are abstract values rather than models of their behaviour.
  - `getUserMedia` is a pending-request counter and a `StreamGranted` event.
  - A `MediaRecorder` is a numbered handle with a log of the calls made on it.
  - A `Blob` is a byte sequence and a MIME type.
  - `URL.createObjectURL` returns the index of the blob in a registry.
  - `setInterval` and `setTimeout` are entries in a handle table that fire as events.
  - A stream is an array of live-track flags.
  - The recorder stand-in never throws. A real `MediaRecorder` throws `InvalidStateError` from `pause()` or `resume()` once it is inactive. So a press of the pause toggle between a press of save and the recorder's `onstop` would abort `onPressPause` at its first call (pages/recorder/index.tsx:109), before `stopTimer` and `setState`. The page would then stay recording. `RecorderSpec.PressPause` and `RecorderProperties.PressPauseToggles` instead move the page to paused.
  - Recorder construction never fails. Browsers without audio/webm support would throw from `new MediaRecorder` (the case pages/recorder/index.tsx:57 notes), leaving the page idle with no recorder.
  - Real time, recorder encoding and the order in which the browser delivers callbacks are not modelled. Any deliverable event may come next.
- The rejection of the microphone request is not modelled. The page has no handler for it, so it leaves the request pending.
- Object URLs are never revoked, and `mediaRecorderRef` is never cleared after a stop. Both are modelled as written.
- The rendered markup is reduced to which buttons and text nodes appear in which state. Styling, the header, the toast text and the `<audio>` element are left out.
- The mm:ss counter text is left out. `formatTime` comes from modules/util, and modules/util is not part of this model.
- React's batching of state updates and the timing of effects are not modelled. Each handler's updates take effect at once, and the toast effect runs within the handler that changes `toastVisible`.
- Unmount models only the toast effect's cleanup, the page's only cleanup. A live interval is left running, as written.
- The store models record ids as plain map keys. It does not cover the JavaScript quirks of ids that collide with object prototype keys.
- `Script.start` and `Script.end` are JavaScript numbers, and the store models them as `real`. Floating-point rounding is not modelled, and the store never computes with them.
- The store treats `summary: null` and `summary: undefined` alike as "no summary given", because `summary != null` rejects both.
- The API routes (pages/api/transcribe.ts, pages/api/summarize.ts) are left out. They only wrap multipart parsing, the filesystem and a remote speech and summary service, apart from answering 405 to non-POST requests.
- components/header.tsx, pages/index.tsx and pages/_app.tsx are left out. They are presentation and provider wiring.
- RecorderSpec.OnRecorderStop: an empty buffer is modelled as the thrown TypeError, which leaves the page unchanged and the tracks live, rather than as a precondition. The page does not prevent a stop before any chunk arrives.
- RecorderSpec.ShowToast: showing a toast that is already visible does not restart its dismissal. The effect depends on `toastVisible`, which does not change. A toast re-shown 1000 ms after the first showing therefore disappears 2000 ms after the first one, not 3000 ms.
- RecorderSpec.StartTimer: it does not clear an interval that is already live, as written. The consequence is proved in `RecorderProperties.DoubleRecordLeaksTicker` rather than corrected. The invariant lemmas exclude an `onstart` that arrives while recording.
- RecorderSpec.OnStopRecord: the live intervals equal the old ones minus timerRef's only when the host's next handle is not already a live timer. Otherwise the dismissal timeout would overwrite that entry, so only the subset is stated. A host never reuses a live handle, and `RecorderProperties.Sound` guarantees it. `RecorderProperties.ScenarioSave` carries the same side condition.

## Findings

| source | as written | input that shows it | evidently intended | confidence | as-written member | corrected member |
|---|---|---|---|---|---|---|
| pages/recorder/index.tsx:148-157 | `state ?? <button>` yields `state` itself when it is not null, so React renders the word "recording" or "paused" as a text node under the controls | state `"recording"` (after the recorder's `onstart`) | the record button when idle, and nothing otherwise, like the other conditionals of the column | high for the rendering, not executed | RecorderSpec.NullishSlotShowsState | RecorderSpec.Rendered |
