/**
 * The recording session controller of pages/recorder/index.tsx, as an
 * abstract state machine over values.
 *
 * A `View` holds the page's React state (`state`, `time`, `audioUrl`,
 * `toastVisible`), its refs (`timerRef`, `chunksRef`, `mediaRecorderRef`),
 * the id of the pending toast dismissal, and the few pieces of the browser
 * the page talks to, replaced by abstract values: the host's table of live
 * timers, its handle allocator, the object URLs minted so far, the pending
 * microphone requests, and the commands sent to media recorders.
 *
 * Every handler of the page is a function here; `Next` dispatches the events
 * that drive the page (button presses, recorder callbacks, timer callbacks).
 * The class in recorder_page.dfy is proved to follow these functions.
 */
module RecorderSpec {
  import opened Wrappers

  newtype byte = x: int | 0 <= x < 256

  /** A Blob: a byte payload and its MIME type.  Recorder chunks and the
      assembled recording are both blobs. */
  datatype Blob = Blob(bytes: seq<byte>, mime: string)

  /** `null`, `"recording"` and `"paused"`. */
  datatype SessionState = Idle | Recording | Paused

  /** A live host timer: a `setInterval` or a `setTimeout`. */
  datatype HostTimer = Interval(periodMs: nat) | Timeout(delayMs: nat)

  /** The `MediaRecorder` calls the page makes. */
  datatype Command = StartCmd | PauseCmd | ResumeCmd | StopCmd

  /** A `MediaRecorder` the page created, and the encoding it asked for. */
  datatype Recorder = Recorder(id: nat, mime: string)

  /** One call made on a recorder. */
  datatype Issued = Issued(recorder: nat, command: Command)

  /** The ticker's period (`setInterval(..., 1000)`). */
  const TickPeriodMs: nat := 1000
  /** The toast's dismissal delay (`setTimeout(..., 2000)`). */
  const ToastDismissMs: nat := 2000
  /** The encoding the page asks the recorder for. */
  const RecorderMime: string := "audio/webm"

  datatype View = View(
    // page state
    state: SessionState,
    time: nat,
    timer: Option<nat>,           // timerRef
    recorder: Option<Recorder>,   // mediaRecorderRef
    chunks: seq<Blob>,            // chunksRef
    audioUrl: Option<nat>,        // an index into objectUrls
    toastVisible: bool,
    toastTimer: Option<nat>,      // the id the toast effect's cleanup clears
    // the browser, abstracted
    timers: map<nat, HostTimer>,  // live intervals and timeouts by handle
    nextHandle: nat,              // the next handle the host hands out
    objectUrls: seq<Blob>,        // URL.createObjectURL: url u denotes objectUrls[u]
    pendingStreams: nat,          // getUserMedia requests not yet resolved
    recordersMade: nat,
    issued: seq<Issued>)          // every call made on a recorder, in order

  /** The page as mounted. Host handles are positive, as browsers hand out. */
  function Init(): (v: View)
    ensures v.state == Idle && v.time == 0 && v.timer == None && v.recorder == None
    ensures v.chunks == [] && v.audioUrl == None && !v.toastVisible && v.timers == map[]
  {
    View(Idle, 0, None, None, [], None, false, None, map[], 1, [], 0, 0, [])
  }

  /** The handles of the live intervals. */
  function ActiveIntervals(v: View): set<nat>
  {
    set h | h in v.timers && v.timers[h].Interval?
  }

  /** Concatenation of blob payloads, as `new Blob(parts)` does: the
      first part's bytes open the result and the last part's close it. */
  function JoinParts(parts: seq<Blob>): (r: seq<byte>)
    ensures parts == [] ==> r == []
    ensures parts != [] ==> parts[0].bytes <= r
    ensures parts != [] ==>
      |parts[|parts| - 1].bytes| <= |r| && r[|r| - |parts[|parts| - 1].bytes|..] == parts[|parts| - 1].bytes
  {
    if parts == [] then [] else parts[0].bytes + JoinParts(parts[1..])
  }

  // ---------------------------------------------------------------------
  // The ticker (index.tsx:15-26)
  // ---------------------------------------------------------------------

  /** `startTimer`: registers a fresh 1000 ms interval and stores its handle
      in timerRef; a handle already there is overwritten, not cleared. */
  function StartTimer(v: View): (w: View)
    ensures w.timer == Some(v.nextHandle) && v.nextHandle in ActiveIntervals(w)
    ensures w.timers[v.nextHandle] == Interval(TickPeriodMs)
    ensures ActiveIntervals(w) == ActiveIntervals(v) + {v.nextHandle}
    ensures w.time == v.time && w.state == v.state && w.nextHandle > v.nextHandle
    ensures w.chunks == v.chunks && w.toastVisible == v.toastVisible && w.toastTimer == v.toastTimer
  {
    v.(timer := Some(v.nextHandle),
       timers := v.timers[v.nextHandle := Interval(TickPeriodMs)],
       nextHandle := v.nextHandle + 1)
  }

  /** `stopTimer`: clears the interval timerRef holds and empties timerRef;
      nothing at all happens when timerRef is empty.  `time` is kept. */
  function StopTimer(v: View): (w: View)
    ensures w.timer == None && w.time == v.time && w.state == v.state
    ensures v.timer == None ==> w == v
    ensures v.timer.Some? ==> v.timer.value !in w.timers
    ensures forall h :: h in w.timers <==> h in v.timers && Some(h) != v.timer
  {
    match v.timer
    case None => v
    case Some(h) => v.(timers := v.timers - {h}, timer := None)
  }

  /** One firing of the interval `h`; the page's callback adds one second. */
  function Tick(v: View, h: nat): (w: View)
    requires h in ActiveIntervals(v)
    ensures w.time == v.time + 1
    ensures w == v.(time := w.time)
  {
    v.(time := v.time + 1)
  }

  // ---------------------------------------------------------------------
  // The toast (index.tsx:28-30, 119-126)
  // ---------------------------------------------------------------------

  /** `showToast` together with the effect it triggers: when the toast turns
      visible, one 2000 ms dismissal timeout is scheduled.  When it is
      visible already the state does not change, so the effect does not run
      again and the pending dismissal stays as it was. */
  function ShowToast(v: View): (w: View)
    ensures w.toastVisible
    ensures v.toastVisible ==> w == v
    ensures !v.toastVisible ==>
      && w.toastTimer == Some(v.nextHandle)
      && w.timers == v.timers[v.nextHandle := Timeout(ToastDismissMs)]
      && w.nextHandle == v.nextHandle + 1
      && ActiveIntervals(w) == ActiveIntervals(v) - {v.nextHandle}
    ensures w.time == v.time && w.state == v.state && w.timer == v.timer && w.chunks == v.chunks
  {
    if v.toastVisible then v
    else
      v.(toastVisible := true,
         toastTimer := Some(v.nextHandle),
         timers := v.timers[v.nextHandle := Timeout(ToastDismissMs)],
         nextHandle := v.nextHandle + 1)
  }

  /** The dismissal timeout `h` fires: the callback hides the toast, and
      since the visibility changed the effect's cleanup clears its id. */
  function ToastTimeout(v: View, h: nat): (w: View)
    requires h in v.timers && v.timers[h].Timeout?
    ensures !w.toastVisible && h !in w.timers
    ensures v.toastVisible ==> w.toastTimer == None
    ensures w.time == v.time && w.state == v.state && w.timer == v.timer && w.chunks == v.chunks
  {
    var fired := v.(timers := v.timers - {h});
    if !v.toastVisible then fired
    else
      match fired.toastTimer
      case None => fired.(toastVisible := false)
      case Some(id) => fired.(toastVisible := false, timers := fired.timers - {id}, toastTimer := None)
  }

  /** Tearing the page down runs the toast effect's cleanup, which cancels
      a pending dismissal.  No cleanup exists for the ticker. */
  function Unmount(v: View): (w: View)
    ensures w.toastTimer == None
    ensures v.toastTimer.Some? ==> v.toastTimer.value !in w.timers
    ensures forall h :: h in w.timers <==> h in v.timers && Some(h) != v.toastTimer
    ensures w.time == v.time && w.state == v.state && w.toastVisible == v.toastVisible
  {
    match v.toastTimer
    case None => v
    case Some(id) => v.(timers := v.timers - {id}, toastTimer := None)
  }

  // ---------------------------------------------------------------------
  // Session handlers (index.tsx:32-117)
  // ---------------------------------------------------------------------

  /** `onStartRecord`: the counter goes back to 0, the previous recording's
      URL is dropped, the ticker starts and the state becomes recording. */
  function OnStartRecord(v: View): (w: View)
    ensures w.state == Recording && w.time == 0 && w.audioUrl == None
    ensures w.timer == Some(v.nextHandle) && v.nextHandle in ActiveIntervals(w)
    ensures ActiveIntervals(w) == ActiveIntervals(v) + {v.nextHandle}
    ensures w.chunks == v.chunks && w.recorder == v.recorder && w.objectUrls == v.objectUrls
    ensures w.toastVisible == v.toastVisible && w.toastTimer == v.toastTimer
  {
    StartTimer(v.(time := 0, audioUrl := None)).(state := Recording)
  }

  /** `onStopRecord`: stores the new URL, returns to idle, stops the ticker
      and shows the toast; `time` is left where it was. */
  function OnStopRecord(v: View, url: nat): (w: View)
    ensures w.audioUrl == Some(url) && w.state == Idle && w.timer == None
    ensures w.toastVisible && w.time == v.time
    ensures w.chunks == v.chunks && w.objectUrls == v.objectUrls && w.recorder == v.recorder
    ensures ActiveIntervals(w) <= ActiveIntervals(v) - (if v.timer.Some? then {v.timer.value} else {})
    ensures v.nextHandle !in v.timers ==>
      ActiveIntervals(w) == ActiveIntervals(v) - (if v.timer.Some? then {v.timer.value} else {})
  {
    ShowToast(StopTimer(v.(audioUrl := Some(url), state := Idle)))
  }

  /** `record()`: only asks for the microphone.  Nothing of the session
      changes until the request resolves and the recorder starts. */
  function Record(v: View): (w: View)
    ensures w.pendingStreams == v.pendingStreams + 1
    ensures w.state == v.state && w.time == v.time && w.recorder == v.recorder && w.timers == v.timers
    ensures w.chunks == v.chunks && w.toastVisible == v.toastVisible && w.toastTimer == v.toastTimer
  {
    v.(pendingStreams := v.pendingStreams + 1)
  }

  /** The microphone request resolves: a recorder asking for audio/webm is
      created, stored in mediaRecorderRef and told to start.  The state is
      still not touched: that waits for the recorder's `onstart`. */
  function OnStreamAcquired(v: View): (w: View)
    requires v.pendingStreams > 0
    ensures w.recorder == Some(Recorder(v.recordersMade, RecorderMime))
    ensures w.issued == v.issued + [Issued(v.recordersMade, StartCmd)]
    ensures w.pendingStreams == v.pendingStreams - 1
    ensures w.state == v.state && w.time == v.time && w.timers == v.timers && w.chunks == v.chunks
  {
    v.(pendingStreams := v.pendingStreams - 1,
       recorder := Some(Recorder(v.recordersMade, RecorderMime)),
       recordersMade := v.recordersMade + 1,
       issued := v.issued + [Issued(v.recordersMade, StartCmd)])
  }

  /** The recorder's `ondataavailable`: the chunk goes at the end of the
      buffer, after every chunk before it, and nothing else changes. */
  function OnDataAvailable(v: View, chunk: Blob): (w: View)
    ensures w.chunks == v.chunks + [chunk]
    ensures |w.chunks| == |v.chunks| + 1 && w.chunks[..|v.chunks|] == v.chunks
    ensures w == v.(chunks := w.chunks)
  {
    v.(chunks := v.chunks + [chunk])
  }

  /** `stop`, `pause`, `resume`: one call on the current recorder, and
      nothing at all when there is none. */
  function Send(v: View, c: Command): (w: View)
    ensures v.recorder == None ==> w == v
    ensures v.recorder.Some? ==> w == v.(issued := v.issued + [Issued(v.recorder.value.id, c)])
  {
    match v.recorder
    case None => v
    case Some(r) => v.(issued := v.issued + [Issued(r.id, c)])
  }

  /** `onstop` of the recorder.  It reads the type of the first buffered
      chunk before anything else, so with an empty buffer it throws and
      nothing changes.  Otherwise it joins every buffered chunk, in order,
      into one blob typed like the first, empties the buffer, mints a URL
      for the blob and runs `onStopRecord` with it.  (Releasing the
      stream's tracks is done by the method in recorder_page.dfy.) */
  function OnRecorderStop(v: View): (w: View)
    ensures v.chunks == [] ==> w == v
    ensures v.chunks != [] ==>
      && w.chunks == []
      && w.objectUrls == v.objectUrls + [Blob(JoinParts(v.chunks), v.chunks[0].mime)]
      && w.audioUrl == Some(|v.objectUrls|)
      && w.state == Idle && w.timer == None && w.toastVisible && w.time == v.time
  {
    if v.chunks == [] then v
    else
      var blob := Blob(JoinParts(v.chunks), v.chunks[0].mime);
      var url := |v.objectUrls|;
      OnStopRecord(v.(chunks := [], objectUrls := v.objectUrls + [blob]), url)
  }

  /** `onPressPause`: in recording, pause the recorder, stop the ticker and
      become paused; in paused, resume it, start the ticker and become
      recording; when idle, nothing. */
  function PressPause(v: View): (w: View)
    ensures v.state == Idle ==> w == v
    ensures v.state == Recording ==>
      w.state == Paused && w.timer == None && w.time == v.time && w.chunks == v.chunks
    ensures v.state == Paused ==>
      w.state == Recording && w.timer == Some(w.nextHandle - 1) && w.timer.value in ActiveIntervals(w)
      && w.time == v.time && w.chunks == v.chunks
  {
    match v.state
    case Recording => StopTimer(Send(v, PauseCmd)).(state := Paused)
    case Paused => StartTimer(Send(v, ResumeCmd)).(state := Recording)
    case Idle => v
  }

  // ---------------------------------------------------------------------
  // What the page renders (index.tsx:128-208)
  // ---------------------------------------------------------------------

  /** The page's buttons, in render order. */
  datatype Control =
    | MicToggle      // recording: the black mic button, onPressPause
    | ResumeToggle   // paused: the pause-icon button, onPressPause
    | RecordButton   // idle: the green mic button, onPressRecord
    | PauseButton    // recording: "pause", onPressPause
    | SaveButton     // recording or paused: "save", onPressSave

  /** The handlers a press can reach. */
  datatype Intent = PressRecord | PressPauseToggle | PressSave

  /** Each button's `onClick`: only the record button reaches
      `onPressRecord` and only save reaches `onPressSave`; the other three
      reach `onPressPause`. */
  function Handler(c: Control): (i: Intent)
    ensures i == PressRecord <==> c == RecordButton
    ensures i == PressSave <==> c == SaveButton
  {
    match c
    case MicToggle => PressPauseToggle
    case ResumeToggle => PressPauseToggle
    case RecordButton => PressRecord
    case PauseButton => PressPauseToggle
    case SaveButton => PressSave
  }

  /** A rendered child of the page's column: a control or a bare text node. */
  datatype Node = Button(control: Control) | Text(text: string)

  function StateName(s: SessionState): string
  {
    match s
    case Idle => "null"
    case Recording => "recording"
    case Paused => "paused"
  }

  /** The slot written `{state ?? <button/>}` (index.tsx:148-157), as
      written: `??` yields `state` itself whenever it is not null, and React
      renders that string as text. */
  function NullishSlotAsWritten(s: SessionState): (r: seq<Node>)
    ensures |r| == 1
    ensures r[0].Button? <==> s == Idle
  {
    if s == Idle then [Button(RecordButton)] else [Text(StateName(s))]
  }

  /** The same slot as intended: the record button when idle, else nothing. */
  function NullishSlot(s: SessionState): (r: seq<Node>)
    ensures forall n :: n in r ==> n == Button(RecordButton)
    ensures Button(RecordButton) in r <==> s == Idle
  {
    if s == Idle then [Button(RecordButton)] else []
  }

  /** As written, the slot shows the word "recording" or "paused" as text
      beside the buttons whenever a session is active. */
  lemma NullishSlotShowsState(s: SessionState)
    requires s != Idle
    ensures Text(StateName(s)) in NullishSlotAsWritten(s)
    ensures Button(RecordButton) !in NullishSlotAsWritten(s)
  {
  }

  /** The buttons and text of the column, in order, with the intended slot:
      buttons only, and the record button exactly when idle. */
  function Rendered(s: SessionState): (r: seq<Node>)
    ensures forall n :: n in r ==> n.Button?
    ensures Button(RecordButton) in r <==> s == Idle
  {
    (if s == Recording then [Button(MicToggle)] else [])
    + (if s == Paused then [Button(ResumeToggle)] else [])
    + NullishSlot(s)
    + (if s == Recording then [Button(PauseButton)] else [])
    + (if s == Recording || s == Paused then [Button(SaveButton)] else [])
  }

  /** The column of each state, spelled out. */
  lemma RenderedColumn(s: SessionState)
    ensures s == Idle ==> Rendered(s) == [Button(RecordButton)]
    ensures s == Recording ==> Rendered(s) == [Button(MicToggle), Button(PauseButton), Button(SaveButton)]
    ensures s == Paused ==> Rendered(s) == [Button(ResumeToggle), Button(SaveButton)]
  {
  }

  /** The controls on screen in state `s`. */
  function Controls(s: SessionState): (cs: set<Control>)
    ensures RecordButton in cs <==> s == Idle
    ensures MicToggle in cs <==> s == Recording
    ensures ResumeToggle in cs <==> s == Paused
    ensures PauseButton in cs <==> s == Recording
    ensures SaveButton in cs <==> s == Recording || s == Paused
  {
    RenderedColumn(s);
    set n | n in Rendered(s) && n.Button? :: n.control
  }

  /** The handlers the user can reach in state `s`. */
  function Offered(s: SessionState): (r: set<Intent>)
    ensures PressRecord in r <==> s == Idle
    ensures PressSave in r <==> s != Idle
    ensures PressPauseToggle in r <==> s != Idle
  {
    var cs := Controls(s);
    assert s != Idle ==> SaveButton in cs && Handler(SaveButton) == PressSave;
    assert s == Recording ==> MicToggle in cs && Handler(MicToggle) == PressPauseToggle;
    assert s == Paused ==> ResumeToggle in cs && Handler(ResumeToggle) == PressPauseToggle;
    assert s == Idle ==> RecordButton in cs && Handler(RecordButton) == PressRecord;
    set c | c in cs :: Handler(c)
  }

  // ---------------------------------------------------------------------
  // Events
  // ---------------------------------------------------------------------

  datatype Event =
    | Press(intent: Intent)        // a click on an offered button
    | StreamGranted                // getUserMedia resolves
    | RecorderStarted              // a recorder's onstart
    | DataAvailable(chunk: Blob)   // a recorder's ondataavailable
    | RecorderStopped              // a recorder's onstop
    | IntervalFired(handle: nat)   // a live interval calls back
    | TimeoutFired(handle: nat)    // a live timeout calls back

  /** When the environment can deliver an event: a click only on a control
      on screen, a resolution only for a pending request, recorder callbacks
      only once a recorder exists, a timer callback only for a live timer. */
  predicate Enabled(v: View, e: Event)
  {
    match e
    case Press(i) => i in Offered(v.state)
    case StreamGranted => v.pendingStreams > 0
    case RecorderStarted => v.recorder.Some?
    case DataAvailable(_) => v.recorder.Some?
    case RecorderStopped => v.recorder.Some?
    case IntervalFired(h) => h in ActiveIntervals(v)
    case TimeoutFired(h) => h in v.timers && v.timers[h].Timeout?
  }

  /** The page's reaction to one event. */
  function Next(v: View, e: Event): View
    requires Enabled(v, e)
  {
    match e
    case Press(PressRecord) => Record(v)
    case Press(PressPauseToggle) => PressPause(v)
    case Press(PressSave) => Send(v, StopCmd)
    case StreamGranted => OnStreamAcquired(v)
    case RecorderStarted => OnStartRecord(v)
    case DataAvailable(c) => OnDataAvailable(v, c)
    case RecorderStopped => OnRecorderStop(v)
    case IntervalFired(h) => Tick(v, h)
    case TimeoutFired(h) => ToastTimeout(v, h)
  }

  /** Every event of `es` can be delivered in turn, starting from `v`. */
  predicate Admissible(v: View, es: seq<Event>)
    decreases |es|
  {
    es == [] || (Enabled(v, es[0]) && Admissible(Next(v, es[0]), es[1..]))
  }

  /** The page after the events `es`. */
  function Run(v: View, es: seq<Event>): View
    requires Admissible(v, es)
    decreases |es|
  {
    if es == [] then v else Run(Next(v, es[0]), es[1..])
  }

  /** The chunks the events of `es` deliver, in order. */
  function DataOf(es: seq<Event>): seq<Blob>
  {
    if es == [] then []
    else (if es[0].DataAvailable? then [es[0].chunk] else []) + DataOf(es[1..])
  }
}
