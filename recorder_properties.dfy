/**
 * Properties of the recording session controller (RecorderSpec): the
 * invariant that ties the page's state to its ticker, toast and recorder,
 * the transitions each event can make, what happens to the buffered chunks,
 * and how the counter behaves over whole runs.
 */
module RecorderProperties {
  import opened Wrappers
  import opened RecorderSpec

  /** The consistent page: a recorder exists whenever a session does; the
      ticker runs exactly while recording, and then it is the only live
      interval, the one timerRef holds; the toast is visible exactly while
      its one dismissal timeout is pending; every live timer has the
      period or delay the code gives it and a handle the host handed out;
      the stored URL is one that was minted. */
  ghost predicate Sound(v: View)
  {
    && (v.recorder == None ==> v.state == Idle)
    && (v.recorder.Some? ==> v.recorder.value.id < v.recordersMade && v.recorder.value.mime == RecorderMime)
    && (v.state == Recording <==> v.timer.Some?)
    && ActiveIntervals(v) == (if v.timer.Some? then {v.timer.value} else {})
    && (v.toastVisible <==> v.toastTimer.Some?)
    && (v.toastTimer.Some? ==>
          v.toastTimer.value in v.timers && v.timers[v.toastTimer.value] == Timeout(ToastDismissMs))
    && (forall h :: h in v.timers && v.timers[h].Timeout? ==> v.toastTimer == Some(h))
    && (forall h :: h in v.timers ==>
          v.timers[h] == Interval(TickPeriodMs) || v.timers[h] == Timeout(ToastDismissMs))
    && (forall h :: h in v.timers ==> h < v.nextHandle)
    && (v.audioUrl.Some? ==> v.audioUrl.value < |v.objectUrls|)
  }

  /** A run in which no recorder's `onstart` arrives while recording.  The
      page's only protection is that the record button is hidden outside
      idle; a second press before the first `onstart` still gets through. */
  ghost predicate Orderly(v: View, es: seq<Event>)
    decreases |es|
  {
    es == [] ||
    (&& Enabled(v, es[0])
     && !(es[0] == RecorderStarted && v.state == Recording)
     && Orderly(Next(v, es[0]), es[1..]))
  }

  // ---------------------------------------------------------------------
  // The invariant
  // ---------------------------------------------------------------------

  lemma InitSound()
    ensures Sound(Init())
  {
  }

  /** Ticker part of the invariant, kept by a stop of the ticker. */
  lemma StopTimerKeepsTicker(v: View)
    requires ActiveIntervals(v) == (if v.timer.Some? then {v.timer.value} else {})
    ensures ActiveIntervals(StopTimer(v)) == {}
  {
  }

  lemma SoundPressPause(v: View)
    requires Sound(v) && v.state != Idle
    ensures Sound(PressPause(v))
  {
    if v.state == Recording {
      StopTimerKeepsTicker(Send(v, PauseCmd));
      assert v.timer.value in ActiveIntervals(v);
    }
  }

  lemma SoundStreamGranted(v: View)
    requires Sound(v) && v.pendingStreams > 0
    ensures Sound(OnStreamAcquired(v))
  {
  }

  lemma SoundStart(v: View)
    requires Sound(v) && v.recorder.Some? && v.state != Recording
    ensures Sound(OnStartRecord(v))
  {
    assert OnStartRecord(v).timer == Some(v.nextHandle);
  }

  lemma SoundStopped(v: View)
    requires Sound(v) && v.recorder.Some? && v.chunks != []
    ensures Sound(OnRecorderStop(v))
  {
    var u := v.(chunks := [], objectUrls := v.objectUrls + [Blob(JoinParts(v.chunks), v.chunks[0].mime)]);
    var u1 := u.(audioUrl := Some(|v.objectUrls|), state := Idle);
    StopTimerKeepsTicker(u1);
    assert v.timer.Some? ==> v.timer.value in ActiveIntervals(v);
    assert ActiveIntervals(OnRecorderStop(v)) == {};
  }

  lemma SoundTimeout(v: View, h: nat)
    requires Sound(v) && h in v.timers && v.timers[h].Timeout?
    ensures Sound(ToastTimeout(v, h))
  {
    assert v.toastTimer == Some(h);
  }

  /** Every delivered event keeps the page consistent, except an `onstart`
      while already recording. */
  lemma SoundStep(v: View, e: Event)
    requires Sound(v) && Enabled(v, e)
    requires !(e == RecorderStarted && v.state == Recording)
    ensures Sound(Next(v, e))
  {
    match e
    case Press(PressRecord) =>
    case Press(PressPauseToggle) => SoundPressPause(v);
    case Press(PressSave) =>
    case StreamGranted => SoundStreamGranted(v);
    case RecorderStarted => SoundStart(v);
    case DataAvailable(_) =>
    case RecorderStopped => if v.chunks != [] { SoundStopped(v); }
    case IntervalFired(_) =>
    case TimeoutFired(h) => SoundTimeout(v, h);
  }

  lemma {:induction false} OrderlyIsAdmissible(v: View, es: seq<Event>)
    requires Orderly(v, es)
    ensures Admissible(v, es)
    decreases |es|
  {
    if es != [] {
      OrderlyIsAdmissible(Next(v, es[0]), es[1..]);
    }
  }

  /** The invariant holds after every orderly run. */
  lemma {:induction false} SoundRun(v: View, es: seq<Event>)
    requires Sound(v) && Orderly(v, es)
    ensures Admissible(v, es) && Sound(Run(v, es))
    decreases |es|
  {
    OrderlyIsAdmissible(v, es);
    if es != [] {
      SoundStep(v, es[0]);
      SoundRun(Next(v, es[0]), es[1..]);
    }
  }

  /** A second `onstart` while recording overwrites timerRef: the old
      interval stays live with nothing left that can clear it, so it keeps
      ticking through a later stop. */
  lemma SecondStartOrphansInterval(v: View)
    requires Sound(v) && v.state == Recording
    ensures var w := Next(v, RecorderStarted);
      && v.timer.value in ActiveIntervals(w) && w.timer != v.timer
      && v.timer.value in ActiveIntervals(StopTimer(w))
      && !Sound(w)
  {
    var w := Next(v, RecorderStarted);
    assert v.nextHandle != v.timer.value;
    assert v.nextHandle in ActiveIntervals(w);
    assert v.timer.value in ActiveIntervals(StopTimer(w));
  }

  // ---------------------------------------------------------------------
  // Transitions of the session state
  // ---------------------------------------------------------------------

  /** The session state moves only as the page's handlers say: to recording
      only on a recorder's `onstart` or on the toggle from paused, to paused
      only on the toggle from recording, to idle only on a recorder's
      `onstop` with something buffered.  Pressing record and the arrival of
      the microphone leave it alone. */
  lemma StateTransitions(v: View, e: Event)
    requires Enabled(v, e)
    ensures var s := Next(v, e).state;
      && (s == Recording && v.state != Recording ==>
            e == RecorderStarted || (e == Press(PressPauseToggle) && v.state == Paused))
      && (s == Paused && v.state != Paused ==> e == Press(PressPauseToggle) && v.state == Recording)
      && (s == Idle && v.state != Idle ==> e == RecorderStopped && v.chunks != [])
      && (e == Press(PressRecord) || e == StreamGranted ==> s == v.state)
      && (e == RecorderStarted ==> s == Recording)
  {
  }

  /** The toggle in both directions, with the ticker, and its absence when
      idle. */
  lemma PressPauseToggles(v: View)
    requires Sound(v)
    ensures v.state == Recording ==>
      PressPause(v).state == Paused && ActiveIntervals(PressPause(v)) == {}
      && PressPause(v).issued == v.issued + [Issued(v.recorder.value.id, PauseCmd)]
    ensures v.state == Paused ==>
      PressPause(v).state == Recording && ActiveIntervals(PressPause(v)) == {v.nextHandle}
      && PressPause(v).issued == v.issued + [Issued(v.recorder.value.id, ResumeCmd)]
    ensures v.state == Idle ==> PressPause(v) == v
    ensures PressPause(v).time == v.time
  {
    if v.state == Recording {
      StopTimerKeepsTicker(Send(v, PauseCmd));
    }
  }

  // ---------------------------------------------------------------------
  // The counter
  // ---------------------------------------------------------------------

  /** One event changes the counter only by a tick (+1) or the reset of a
      new session (to 0). */
  lemma TimeStep(v: View, e: Event)
    requires Enabled(v, e)
    ensures var t := Next(v, e).time;
      && (e.IntervalFired? ==> t == v.time + 1)
      && (e == RecorderStarted ==> t == 0)
      && (!e.IntervalFired? && e != RecorderStarted ==> t == v.time)
  {
  }

  /** Without a new session the counter never goes down. */
  lemma {:induction false} TimeMonotone(v: View, es: seq<Event>)
    requires Admissible(v, es)
    requires forall i :: 0 <= i < |es| ==> es[i] != RecorderStarted
    ensures Run(v, es).time >= v.time
    decreases |es|
  {
    if es != [] {
      TimeStep(v, es[0]);
      TimeMonotone(Next(v, es[0]), es[1..]);
    }
  }

  /** While paused nothing ticks: in a consistent paused page no interval
      is live, so only a new `onstart` changes the counter. */
  lemma PausedTimeFrozen(v: View, e: Event)
    requires Sound(v) && v.state != Recording && Enabled(v, e)
    requires e != RecorderStarted
    ensures Next(v, e).time == v.time
  {
  }

  // ---------------------------------------------------------------------
  // Chunks and the assembled recording
  // ---------------------------------------------------------------------

  lemma {:induction false} JoinPartsAppend(a: seq<Blob>, b: seq<Blob>)
    ensures JoinParts(a + b) == JoinParts(a) + JoinParts(b)
    decreases |a|
  {
    if a == [] {
      assert a + b == b;
    } else {
      assert (a + b)[1..] == a[1..] + b;
      JoinPartsAppend(a[1..], b);
    }
  }

  lemma {:induction false} DataOfAppend(a: seq<Event>, b: seq<Event>)
    ensures DataOf(a + b) == DataOf(a) + DataOf(b)
    decreases |a|
  {
    if a == [] {
      assert a + b == b;
    } else {
      assert (a + b)[1..] == a[1..] + b;
      DataOfAppend(a[1..], b);
    }
  }

  lemma {:induction false} RunAppend(v: View, a: seq<Event>, b: seq<Event>)
    requires Admissible(v, a) && Admissible(Run(v, a), b)
    ensures Admissible(v, a + b) && Run(v, a + b) == Run(Run(v, a), b)
    decreases |a|
  {
    if a == [] {
      assert a + b == b;
    } else {
      assert (a + b)[1..] == a[1..] + b;
      RunAppend(Next(v, a[0]), a[1..], b);
    }
  }

  /** Until a recorder stops, every chunk delivered is appended to the
      buffer in arrival order, whatever else happens: pauses, resumes,
      ticks, presses. */
  lemma {:induction false} ChunksAccumulate(v: View, es: seq<Event>)
    requires Admissible(v, es)
    requires forall i :: 0 <= i < |es| ==> es[i] != RecorderStopped
    ensures Run(v, es).chunks == v.chunks + DataOf(es)
    decreases |es|
  {
    if es != [] {
      var u := Next(v, es[0]);
      assert es[0] != RecorderStopped;
      NextChunks(v, es[0]);
      assert forall i :: 0 <= i < |es[1..]| ==> es[1..][i] == es[i + 1];
      ChunksAccumulate(u, es[1..]);
      assert Run(v, es) == Run(u, es[1..]);
      assert DataOf(es) == (if es[0].DataAvailable? then [es[0].chunk] else []) + DataOf(es[1..]);
    }
  }

  /** One event other than a stop appends its chunk, if it carries one. */
  lemma NextChunks(v: View, e: Event)
    requires Enabled(v, e) && e != RecorderStopped
    ensures Next(v, e).chunks == v.chunks + (if e.DataAvailable? then [e.chunk] else [])
  {
  }

  /** The recording a stop produces: starting from an empty buffer, after
      any run without a stop that delivered some chunks, the recorder's
      `onstop` mints exactly one new URL, for the join of all those chunks
      in arrival order (those before a pause included), typed like the
      first; the buffer is empty again and the page is idle. */
  lemma StopAssemblesEveryChunk(v: View, es: seq<Event>)
    requires v.chunks == [] && Admissible(v, es)
    requires forall i :: 0 <= i < |es| ==> es[i] != RecorderStopped
    requires DataOf(es) != [] && Run(v, es).recorder.Some?
    ensures Admissible(v, es + [RecorderStopped])
    ensures var w := Run(v, es + [RecorderStopped]);
      && w.objectUrls == Run(v, es).objectUrls + [Blob(JoinParts(DataOf(es)), DataOf(es)[0].mime)]
      && w.audioUrl == Some(|Run(v, es).objectUrls|)
      && w.chunks == [] && w.state == Idle && w.toastVisible
  {
    ChunksAccumulate(v, es);
    var u := Run(v, es);
    assert u.chunks == DataOf(es) by { assert v.chunks + DataOf(es) == DataOf(es); }
    assert [RecorderStopped][1..] == [];
    assert Run(u, [RecorderStopped]) == OnRecorderStop(u);
    RunAppend(v, es, [RecorderStopped]);
  }

  /** The join of leading parts is a prefix of the join of all of them,
      and the first part fixes the type. */
  lemma JoinPartsPrefix(before: seq<Blob>, after: seq<Blob>)
    requires before != []
    ensures JoinParts(before) <= JoinParts(before + after)
    ensures (before + after)[0].mime == before[0].mime
  {
    JoinPartsAppend(before, after);
  }

  /** A pause does not lose what was recorded before it: for a session that
      delivers chunks `a`, is paused, and goes on (resumed or not) through
      `b` without a stop, the recording the stop then mints opens with the
      bytes of the chunks delivered before the pause, and has their type. */
  lemma ChunksBeforePauseArePrefix(v: View, a: seq<Event>, b: seq<Event>)
    requires v.chunks == [] && Admissible(v, a + [Press(PressPauseToggle)] + b)
    requires forall i :: 0 <= i < |a + [Press(PressPauseToggle)] + b| ==>
      (a + [Press(PressPauseToggle)] + b)[i] != RecorderStopped
    requires DataOf(a) != [] && Run(v, a + [Press(PressPauseToggle)] + b).recorder.Some?
    ensures Admissible(v, a + [Press(PressPauseToggle)] + b + [RecorderStopped])
    ensures var w := Run(v, a + [Press(PressPauseToggle)] + b + [RecorderStopped]);
      && |w.objectUrls| > 0
      && JoinParts(DataOf(a)) <= w.objectUrls[|w.objectUrls| - 1].bytes
      && w.objectUrls[|w.objectUrls| - 1].mime == DataOf(a)[0].mime
  {
    var es := a + [Press(PressPauseToggle)] + b;
    var rest := [Press(PressPauseToggle)] + b;
    assert es == a + rest;
    DataOfAppend(a, rest);
    assert DataOf(es) == DataOf(a) + DataOf(rest);
    StopAssemblesEveryChunk(v, es);
    var w := Run(v, es + [RecorderStopped]);
    var blob := Blob(JoinParts(DataOf(es)), DataOf(es)[0].mime);
    assert w.objectUrls[|w.objectUrls| - 1] == blob;
    JoinPartsPrefix(DataOf(a), DataOf(rest));
  }

  // ---------------------------------------------------------------------
  // Concrete runs
  // ---------------------------------------------------------------------

  /** A run is its first step followed by the rest. */
  lemma RunCons(v: View, e: Event, es: seq<Event>)
    requires Enabled(v, e) && Admissible(Next(v, e), es)
    ensures Admissible(v, [e] + es) && Run(v, [e] + es) == Run(Next(v, e), es)
  {
    assert ([e] + es)[0] == e && ([e] + es)[1..] == es;
  }

  /** The first phase of the scenario below: start and three ticks. */
  lemma ScenarioStart()
    ensures var es := [Press(PressRecord), StreamGranted, RecorderStarted,
                       IntervalFired(1), IntervalFired(1), IntervalFired(1)];
      && Admissible(Init(), es)
      && var w := Run(Init(), es);
      && w.state == Recording && w.time == 3 && w.recorder.Some?
      && w.chunks == [] && w.objectUrls == [] && !w.toastVisible
      && w.nextHandle == 2 && Sound(w)
  {
    var v0 := Init();
    var v1 := Next(v0, Press(PressRecord));
    var v2 := Next(v1, StreamGranted);
    var v3 := Next(v2, RecorderStarted);
    assert v3.timer == Some(1) && 1 in ActiveIntervals(v3);
    var v4 := Next(v3, IntervalFired(1));
    var v5 := Next(v4, IntervalFired(1));
    var v6 := Next(v5, IntervalFired(1));
    assert v6.time == 3;
    InitSound();
    SoundStep(v0, Press(PressRecord));
    SoundStep(v1, StreamGranted);
    SoundStep(v2, RecorderStarted);
    SoundStep(v3, IntervalFired(1));
    SoundStep(v4, IntervalFired(1));
    SoundStep(v5, IntervalFired(1));
    RunCons(v5, IntervalFired(1), []);
    RunCons(v4, IntervalFired(1), [IntervalFired(1)]);
    RunCons(v3, IntervalFired(1), [IntervalFired(1), IntervalFired(1)]);
    var t := [IntervalFired(1), IntervalFired(1), IntervalFired(1)];
    RunCons(v2, RecorderStarted, t);
    RunCons(v1, StreamGranted, [RecorderStarted] + t);
    RunCons(v0, Press(PressRecord), [StreamGranted, RecorderStarted] + t);
  }

  /** The second phase: pause, resume and two ticks of the new interval. */
  lemma ScenarioToggle(v: View)
    requires Sound(v) && v.state == Recording
    ensures var h := v.nextHandle;
      var es := [Press(PressPauseToggle), Press(PressPauseToggle), IntervalFired(h), IntervalFired(h)];
      && Admissible(v, es)
      && var w := Run(v, es);
      && w.state == Recording && w.time == v.time + 2 && w.recorder == v.recorder
      && w.chunks == v.chunks && w.objectUrls == v.objectUrls && w.toastVisible == v.toastVisible
  {
    var h := v.nextHandle;
    var v1 := Next(v, Press(PressPauseToggle));
    assert v1.state == Paused && v1.nextHandle == h;
    var v2 := Next(v1, Press(PressPauseToggle));
    assert v2.state == Recording && h in ActiveIntervals(v2);
    var v3 := Next(v2, IntervalFired(h));
    var v4 := Next(v3, IntervalFired(h));
    RunCons(v3, IntervalFired(h), []);
    RunCons(v2, IntervalFired(h), [IntervalFired(h)]);
    RunCons(v1, Press(PressPauseToggle), [IntervalFired(h), IntervalFired(h)]);
    RunCons(v, Press(PressPauseToggle), [Press(PressPauseToggle), IntervalFired(h), IntervalFired(h)]);
  }

  /** The last phase: save, the recorder's one chunk, its `onstop`. */
  lemma ScenarioSave(v: View, c: Blob)
    requires v.state == Recording && v.recorder.Some? && v.chunks == []
    ensures var es := [Press(PressSave), DataAvailable(c), RecorderStopped];
      && Admissible(v, es)
      && var w := Run(v, es);
      && w.state == Idle && w.time == v.time && w.toastVisible
      && w.objectUrls == v.objectUrls + [Blob(c.bytes, c.mime)]
      && w.audioUrl == Some(|v.objectUrls|) && w.chunks == [] && w.timer == None
      && (v.nextHandle !in v.timers ==>
            ActiveIntervals(w) == ActiveIntervals(v) - (if v.timer.Some? then {v.timer.value} else {}))
  {
    var v1 := Next(v, Press(PressSave));
    var v2 := Next(v1, DataAvailable(c));
    assert v2.chunks == [c];
    assert JoinParts([c]) == c.bytes;
    var v3 := Next(v2, RecorderStopped);
    RunCons(v2, RecorderStopped, []);
    RunCons(v1, DataAvailable(c), [RecorderStopped]);
    RunCons(v, Press(PressSave), [DataAvailable(c), RecorderStopped]);
    assert ActiveIntervals(v2) == ActiveIntervals(v);
  }

  /** Start, three ticks, pause, resume, two ticks, save: the counter reads
      5 at the stop, exactly one recording is produced, made of the chunk
      the recorder delivered, and the page is idle with the toast shown. */
  lemma PauseResumeScenario(c: Blob)
    ensures var es :=
        [Press(PressRecord), StreamGranted, RecorderStarted,
         IntervalFired(1), IntervalFired(1), IntervalFired(1)]
        + [Press(PressPauseToggle), Press(PressPauseToggle), IntervalFired(2), IntervalFired(2)]
        + [Press(PressSave), DataAvailable(c), RecorderStopped];
      && Admissible(Init(), es)
      && Run(Init(), es).time == 5
      && Run(Init(), es).objectUrls == [Blob(c.bytes, c.mime)]
      && Run(Init(), es).audioUrl == Some(0)
      && Run(Init(), es).state == Idle && Run(Init(), es).toastVisible
  {
    var a := [Press(PressRecord), StreamGranted, RecorderStarted,
              IntervalFired(1), IntervalFired(1), IntervalFired(1)];
    ScenarioStart();
    var u := Run(Init(), a);
    var b := [Press(PressPauseToggle), Press(PressPauseToggle), IntervalFired(2), IntervalFired(2)];
    ScenarioToggle(u);
    var w := Run(u, b);
    var d := [Press(PressSave), DataAvailable(c), RecorderStopped];
    ScenarioSave(w, c);
    RunAppend(Init(), a, b);
    RunAppend(Init(), a + b, d);
  }

  /** Two presses of record before the first `onstart`, both recorders
      starting: the second `onstart` finds the page recording. */
  lemma DoubleStart()
    ensures var es := [Press(PressRecord), Press(PressRecord), StreamGranted, StreamGranted,
                       RecorderStarted, RecorderStarted];
      && Admissible(Init(), es)
      && var w := Run(Init(), es);
      && w.state == Recording && w.recorder.Some? && w.chunks == []
      && w.timer == Some(2) && w.timers == map[1 := Interval(TickPeriodMs), 2 := Interval(TickPeriodMs)]
      && w.nextHandle == 3
  {
    var v0 := Init();
    var v1 := Next(v0, Press(PressRecord));
    var v2 := Next(v1, Press(PressRecord));
    assert v2.state == Idle && v2.pendingStreams == 2;
    var v3 := Next(v2, StreamGranted);
    var v4 := Next(v3, StreamGranted);
    var v5 := Next(v4, RecorderStarted);
    assert v5.timer == Some(1) && 1 in ActiveIntervals(v5);
    var v6 := Next(v5, RecorderStarted);
    assert v6.timer == Some(2) && v6.timers == map[1 := Interval(TickPeriodMs), 2 := Interval(TickPeriodMs)];
    RunCons(v5, RecorderStarted, []);
    RunCons(v4, RecorderStarted, [RecorderStarted]);
    RunCons(v3, StreamGranted, [RecorderStarted, RecorderStarted]);
    RunCons(v2, StreamGranted, [StreamGranted, RecorderStarted, RecorderStarted]);
    RunCons(v1, Press(PressRecord), [StreamGranted, StreamGranted, RecorderStarted, RecorderStarted]);
    RunCons(v0, Press(PressRecord), [Press(PressRecord), StreamGranted, StreamGranted, RecorderStarted, RecorderStarted]);
  }

  /** Pressing record twice before the first `onstart` is possible, since
      the record button stays on screen while idle.  Both recorders start,
      and after a save the page is idle with the first interval still live,
      and it goes on adding to the counter. */
  lemma DoubleRecordLeaksTicker(c: Blob)
    ensures var es :=
        [Press(PressRecord), Press(PressRecord), StreamGranted, StreamGranted,
         RecorderStarted, RecorderStarted]
        + [Press(PressSave), DataAvailable(c), RecorderStopped];
      && Admissible(Init(), es)
      && var w := Run(Init(), es);
      && w.state == Idle && w.timer == None && ActiveIntervals(w) == {1}
      && Admissible(w, [IntervalFired(1)]) && Run(w, [IntervalFired(1)]).time == w.time + 1
  {
    var a := [Press(PressRecord), Press(PressRecord), StreamGranted, StreamGranted,
              RecorderStarted, RecorderStarted];
    DoubleStart();
    var u := Run(Init(), a);
    assert u.nextHandle !in u.timers && u.timer == Some(2);
    assert ActiveIntervals(u) == {1, 2};
    var d := [Press(PressSave), DataAvailable(c), RecorderStopped];
    ScenarioSave(u, c);
    var w := Run(u, d);
    assert ActiveIntervals(w) == {1, 2} - {2} == {1};
    RunAppend(Init(), a, d);
    RunCons(w, IntervalFired(1), []);
  }

  // ---------------------------------------------------------------------
  // The toast
  // ---------------------------------------------------------------------

  /** Showing the toast again while it is up changes nothing: the first
      dismissal stays the only one pending, so a toast shown at 0 ms and
      again at 1000 ms is dismissed at 2000 ms. */
  lemma RetriggerKeepsDismissal(v: View)
    requires Sound(v) && v.toastVisible
    ensures ShowToast(v).toastTimer == v.toastTimer
    ensures ShowToast(v).timers == v.timers
  {
  }

  /** Showing the toast from hidden leaves exactly one dismissal pending,
      the 2000 ms one just scheduled. */
  lemma ShowToastSchedulesOne(v: View)
    requires Sound(v) && !v.toastVisible
    ensures var w := ShowToast(v);
      && w.toastTimer.Some? && w.timers[w.toastTimer.value] == Timeout(ToastDismissMs)
      && forall h :: h in w.timers && w.timers[h].Timeout? ==> h == w.toastTimer.value
  {
  }

  /** The dismissal hides the toast and leaves no timeout pending;
      tearing the page down cancels a pending one. */
  lemma DismissalAndTeardown(v: View, h: nat)
    requires Sound(v) && h in v.timers && v.timers[h].Timeout?
    ensures var w := ToastTimeout(v, h);
      !w.toastVisible && forall k :: k in w.timers ==> !w.timers[k].Timeout?
    ensures forall k :: k in Unmount(v).timers ==> !Unmount(v).timers[k].Timeout?
  {
  }
}
